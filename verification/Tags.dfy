/** Tags handed out of one map to requests of several queues, in steps that may interleave in
    any way: a search, a test-and-set, writes of the request and of the index, and for the
    way back the same in reverse. */
module Tags {

  /** How far a request is with its tag. */
  datatype Phase =
    | Untagged
    | Found(tag: nat)     // the search returned a tag that was free when it looked
    | Won(tag: nat)       // the test-and-set got it
    | Tagged(tag: nat)    // the request records it
    | Indexed(tag: nat)   // the index records the request
    | Returning(tag: nat) // the request no longer records it
    | Cleared(tag: nat)   // the index no longer records the request

  /** The map's busy bits, the index by tag, and the requests of all the queues. */
  datatype State = State(depth: nat, busy: set<nat>, index: map<nat, nat>, phase: map<nat, Phase>, sync: map<nat, bool>)

  /** How many tags a request may choose from: the top two are kept for synchronous ones. */
  function Limit(depth: nat, sync: bool): nat {
    if sync || depth <= 1 then depth
    else if depth == 2 then 1
    else depth - 2
  }

  datatype Step =
    | Search(r: nat, tag: nat)
    | TestAndSet(r: nat)
    | WriteTag(r: nat)
    | WriteIndex(r: nat)
    | ClearTag(r: nat)
    | ClearIndex(r: nat)
    | ClearBit(r: nat)

  predicate Known(s: State, r: nat) { r in s.phase && r in s.sync }

  /** The search may return any tag within the limit: the bit may have been taken since. */
  predicate Enabled(s: State, step: Step) {
    Known(s, step.r) &&
    match step
    case Search(r, tag) => s.phase[r].Untagged? && tag < Limit(s.depth, s.sync[r])
    case TestAndSet(r) => s.phase[r].Found?
    case WriteTag(r) => s.phase[r].Won?
    case WriteIndex(r) => s.phase[r].Tagged?
    case ClearTag(r) => s.phase[r].Indexed?
    case ClearIndex(r) => s.phase[r].Returning?
    case ClearBit(r) => s.phase[r].Cleared?
  }

  function Next(s: State, step: Step): State
    requires Enabled(s, step)
  {
    var r := step.r;
    match step
    case Search(_, tag) => s.(phase := s.phase[r := Found(tag)])
    case TestAndSet(_) =>
      var t := s.phase[r].tag;
      if t in s.busy then s.(phase := s.phase[r := Untagged])
      else s.(busy := s.busy + {t}, phase := s.phase[r := Won(t)])
    case WriteTag(_) => s.(phase := s.phase[r := Tagged(s.phase[r].tag)])
    case WriteIndex(_) => s.(index := s.index[s.phase[r].tag := r], phase := s.phase[r := Indexed(s.phase[r].tag)])
    case ClearTag(_) => s.(phase := s.phase[r := Returning(s.phase[r].tag)])
    case ClearIndex(_) => s.(index := s.index - {s.phase[r].tag}, phase := s.phase[r := Cleared(s.phase[r].tag)])
    case ClearBit(_) => s.(busy := s.busy - {s.phase[r].tag}, phase := s.phase[r := Untagged])
  }

  /** A request that has the tag's bit, from the test-and-set to the clearing of it. */
  predicate Owns(s: State, r: nat, t: nat) {
    r in s.phase && !s.phase[r].Untagged? && !s.phase[r].Found? && s.phase[r].tag == t
  }

  /** A request that records a tag. */
  predicate HasTag(s: State, r: nat, t: nat) {
    r in s.phase && (s.phase[r].Tagged? || s.phase[r].Indexed?) && s.phase[r].tag == t
  }

  /** A tag is owned by one request at most, its bit is set just then, and it is one that
      the request may have. */
  ghost predicate OwnersOk(s: State) {
    && (forall r: nat, t: nat :: Owns(s, r, t) ==> t in s.busy && r in s.sync && t < Limit(s.depth, s.sync[r]))
    && (forall r1: nat, r2: nat, t: nat :: Owns(s, r1, t) && Owns(s, r2, t) ==> r1 == r2)
    && (forall t: nat :: t in s.busy ==> exists r: nat :: Owns(s, r, t))
  }

  predicate InIndex(p: Phase) { p.Indexed? || p.Returning? }

  /** The index names the owner, from when it has been written to when it is cleared. */
  ghost predicate IndexOk(s: State) {
    && (forall t: nat :: t in s.index ==> Owns(s, s.index[t], t) && InIndex(s.phase[s.index[t]]))
    && (forall r: nat :: r in s.phase && InIndex(s.phase[r]) ==> s.phase[r].tag in s.index)
  }

  ghost predicate FoundOk(s: State) {
    forall r: nat :: r in s.phase && s.phase[r].Found? ==> r in s.sync && s.phase[r].tag < Limit(s.depth, s.sync[r])
  }

  ghost predicate Inv(s: State) { OwnersOk(s) && IndexOk(s) && FoundOk(s) }

  /** Nobody has a tag yet. */
  ghost predicate Initial(s: State) {
    s.busy == {} && s.index == map[] && forall r :: r in s.phase ==> s.phase[r].Untagged?
  }

  /** Steps that leave the bits alone leave the owners alone. */
  lemma SameOwners(s: State, s': State)
    requires OwnersOk(s) && s'.busy == s.busy && s'.sync == s.sync && s'.depth == s.depth
    requires forall r: nat, t: nat :: Owns(s', r, t) <==> Owns(s, r, t)
    ensures OwnersOk(s')
  {
    hide Owns, Limit;
    forall t: nat | t in s'.busy ensures exists r: nat :: Owns(s', r, t) {
      var r: nat :| Owns(s, r, t);
      assert Owns(s', r, t);
    }
  }

  lemma TakeKeepsOwners(s: State, r: nat)
    requires OwnersOk(s) && FoundOk(s) && Enabled(s, TestAndSet(r)) && s.phase[r].tag !in s.busy
    ensures OwnersOk(Next(s, TestAndSet(r)))
  {
    hide Limit;
    var s', t := Next(s, TestAndSet(r)), s.phase[r].tag;
    forall x: nat, u: nat ensures Owns(s', x, u) <==> Owns(s, x, u) || (x == r && u == t) {}
    forall u: nat | u in s'.busy ensures exists x: nat :: Owns(s', x, u) {
      if u == t {
        assert Owns(s', r, t);
      } else {
        var x: nat :| Owns(s, x, u);
        assert Owns(s', x, u);
      }
    }
  }

  lemma ReleaseKeepsOwners(s: State, r: nat)
    requires OwnersOk(s) && Enabled(s, ClearBit(r))
    ensures OwnersOk(Next(s, ClearBit(r)))
  {
    hide Limit;
    var s', t := Next(s, ClearBit(r)), s.phase[r].tag;
    assert Owns(s, r, t);
    forall x: nat, u: nat ensures Owns(s', x, u) <==> Owns(s, x, u) && u != t {}
    forall u: nat | u in s'.busy ensures exists x: nat :: Owns(s', x, u) {
      var x: nat :| Owns(s, x, u);
      assert Owns(s', x, u);
    }
  }

  lemma StepKeepsOwners(s: State, step: Step)
    requires Inv(s) && Enabled(s, step)
    ensures OwnersOk(Next(s, step))
  {
    if step.ClearBit? {
      ReleaseKeepsOwners(s, step.r);
    } else if step.TestAndSet? && s.phase[step.r].tag !in s.busy {
      TakeKeepsOwners(s, step.r);
    } else {
      hide OwnersOk, Limit;
      SameOwners(s, Next(s, step));
    }
  }

  lemma StepKeepsIndex(s: State, step: Step)
    requires Inv(s) && Enabled(s, step)
    ensures IndexOk(Next(s, step))
  {
    hide Limit;
    var s', r := Next(s, step), step.r;
    if !s.phase[r].Untagged? && !s.phase[r].Found? {
      assert Owns(s, r, s.phase[r].tag);
    }
    forall t: nat | t in s'.index ensures Owns(s', s'.index[t], t) && InIndex(s'.phase[s'.index[t]]) {
      if t in s.index {
        assert Owns(s, s.index[t], t);
      }
    }
    forall x: nat | x in s'.phase && InIndex(s'.phase[x]) ensures s'.phase[x].tag in s'.index {
      if InIndex(s.phase[x]) {
        assert Owns(s, x, s.phase[x].tag);
      }
    }
  }

  lemma StepKeepsFound(s: State, step: Step)
    requires Inv(s) && Enabled(s, step)
    ensures FoundOk(Next(s, step))
  {
    hide Limit, OwnersOk, IndexOk;
  }

  ghost predicate IsRun(s: State, steps: seq<Step>)
    decreases |steps|
  {
    steps == [] || (Enabled(s, steps[0]) && IsRun(Next(s, steps[0]), steps[1..]))
  }

  ghost function RunTo(s: State, steps: seq<Step>): State
    requires IsRun(s, steps)
    decreases |steps|
  {
    if steps == [] then s else RunTo(Next(s, steps[0]), steps[1..])
  }

  lemma {:induction false} RunsKeepInv(s: State, steps: seq<Step>)
    requires Inv(s) && IsRun(s, steps)
    ensures Inv(RunTo(s, steps))
    decreases |steps|
  {
    if steps != [] {
      StepKeepsOwners(s, steps[0]);
      StepKeepsIndex(s, steps[0]);
      StepKeepsFound(s, steps[0]);
      hide OwnersOk, IndexOk, FoundOk, Next, Enabled;
      RunsKeepInv(Next(s, steps[0]), steps[1..]);
    }
  }

  /** What holds of the tags whatever the interleaving. */
  ghost predicate TagsOk(s: State) {
    // no two requests record the same tag
    && (forall r1: nat, r2: nat, t: nat :: HasTag(s, r1, t) && HasTag(s, r2, t) ==> r1 == r2)
    // an entry of the index is the request that owns the tag
    && (forall t: nat :: t in s.index ==> Owns(s, s.index[t], t))
    // the top two tags are held by synchronous requests only
    && (s.depth >= 3 ==> forall r: nat, t: nat :: Owns(s, r, t) && t >= s.depth - 2 ==> r in s.sync && s.sync[r])
    // a tag on its way back is in the index, and its bit set, when each is cleared
    && (forall r: nat :: r in s.phase && s.phase[r].Returning? ==> s.phase[r].tag in s.index && s.index[s.phase[r].tag] == r)
    && (forall r: nat :: r in s.phase && s.phase[r].Cleared? ==> s.phase[r].tag in s.busy)
  }

  lemma InvIsOk(s: State)
    requires Inv(s)
    ensures TagsOk(s)
  {
    forall r1: nat, r2: nat, t: nat | HasTag(s, r1, t) && HasTag(s, r2, t) ensures r1 == r2 {
      assert Owns(s, r1, t) && Owns(s, r2, t);
    }
    forall r: nat | r in s.phase && s.phase[r].Returning?
      ensures s.phase[r].tag in s.index && s.index[s.phase[r].tag] == r
    {
      var t := s.phase[r].tag;
      assert Owns(s, r, t) && Owns(s, s.index[t], t);
    }
    forall r: nat | r in s.phase && s.phase[r].Cleared? ensures s.phase[r].tag in s.busy {
      assert Owns(s, r, s.phase[r].tag);
    }
  }

  /** In every run of tag operations of any number of queues, however they interleave. */
  lemma TagsAreExclusive(s: State, steps: seq<Step>)
    requires Initial(s) && IsRun(s, steps)
    ensures TagsOk(RunTo(s, steps))
  {
    hide IsRun, RunTo, TagsOk;
    RunsKeepInv(s, steps);
    InvIsOk(RunTo(s, steps));
  }
}
