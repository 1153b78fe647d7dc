/** Progress when tags order the queue.  A running sequence can get stuck in exactly one of
    the ordering modes: plain tag ordering, whose empty barriers fall back to draining. */
module BarrierTag {
  import opened Requests
  import opened BarrierModel
  import opened Tallies
  import opened BarrierSequence
  import opened BarrierPlaces
  import opened BarrierDrain
  import opened BarrierTheorems

  /** No proxy stands behind a barrier that waits for its own sequence. */
  ghost predicate ProxyFirst(head: seq<Request>) {
    forall i, j :: BarrierAt(head, i) && i < j < |head| ==> !head[j].IsProxy()
  }

  ghost predicate TagInv(q: Queue) {
    && SeqInv(q) && q.nextOrdered.byTag && q.nextOrdered.preflush && !q.nextOrdered.byDrain
    && (q.ordseq != ZERO ==> q.ordered.byTag && q.ordseq.drain)
    && ProxyFirst(q.head)
  }

  lemma InsertKeepsFirst(head: seq<Request>, at: nat, r: Request)
    requires at <= |head| && ProxyFirst(head) && !QueuedBarrier(r)
    requires r.IsProxy() ==> forall i :: BarrierAt(head, i) ==> at <= i
    ensures ProxyFirst(InsertAt(head, at, r))
  {
    var t := InsertAt(head, at, r);
    InsertAtIndices(head, at, r);
    forall i, j | BarrierAt(t, i) && i < j < |t|
      ensures !t[j].IsProxy()
    {
      assert BarrierAt(head, if i < at then i else i - 1);
    }
  }

  lemma PopKeepsFirst(head: seq<Request>)
    requires head != [] && ProxyFirst(head)
    ensures ProxyFirst(head[1..])
  {
    forall i, j | BarrierAt(head[1..], i) && i < j < |head[1..]|
      ensures !head[1..][j].IsProxy()
    {
      assert BarrierAt(head, i + 1);
    }
  }

  lemma DispatchFirst(q: Queue, m: Move)
    requires SeqInv(q) && ProxyFirst(q.head) && CanDispatch(q, m)
    ensures ProxyFirst(Dispatch(q, m).head)
  {
    InsertKeepsFirst(q.head, m.at, q.sched[m.from]);
  }

  lemma DispatchTag(q: Queue, m: Move)
    requires TagInv(q) && CanDispatch(q, m)
    ensures TagInv(Dispatch(q, m))
  {
    DispatchKeeps(q, m);
    DispatchFirst(q, m);
    hide SeqInv, ProxyFirst;
  }

  lemma DrainTag(q: Queue, plan: seq<Move>)
    requires TagInv(q) && Drains(q, plan)
    ensures TagInv(DrainElevator(q, plan))
    decreases plan
  {
    hide TagInv;
    if plan != [] {
      DispatchTag(q, plan[0]);
      DrainTag(Dispatch(q, plan[0]), plan[1..]);
    }
  }

  lemma StartFirst(q: Queue)
    requires SeqInv(q) && q.ordseq == ZERO && BarrierAt(q.head, 0)
    ensures ProxyFirst(StartOrdered(q).q.head)
  {
    NoProxies(q);
    var m := SequenceMode(q.nextOrdered, q.head[0].sectors);
    var proxies := Proxies(q.head[0], m);
    var h := proxies + q.head[1..];
    forall i, j | BarrierAt(h, i) && i < j < |h|
      ensures !h[j].IsProxy()
    {
      assert |proxies| <= i;
      assert h[j] == q.head[j - |proxies| + 1];
    }
    assert StartOrdered(q).q.head == h;
  }

  lemma DoOrderedTag(q: Queue)
    requires TagInv(q) && q.head != []
    ensures TagInv(DoOrdered(q).q)
  {
    DoOrderedKeeps(q);
    if q.ordseq == ZERO {
      NoProxyAtHead(q);
      if BarrierAt(q.head, 0) { StartFirst(q); }
    }
    hide SeqInv, ProxyFirst;
  }

  lemma NextRequestTag(q: Queue, plan: seq<nat>)
    requires TagInv(q)
    ensures TagInv(NextRequest(q, plan).q)
    decreases |plan|, |q.head|
  {
    hide TagInv, DoOrdered;
    if q.head != [] {
      DoOrderedTag(q);
      if !DoOrdered(q).keep {
        DoOrderedShrinks(q);
        NextRequestTag(DoOrdered(q).q, plan);
      }
    } else if plan != [] && plan[0] < |q.sched| {
      DispatchTag(q, Move(plan[0], 0));
      NextRequestTag(Dispatch(q, Move(plan[0], 0)), plan[1..]);
    }
  }

  lemma PeekTag(q: Queue, plan: seq<nat>)
    requires TagInv(q)
    ensures TagInv(Peek(q, plan).q)
  {
    NextRequestTag(q, plan);
    PeekKeeps(q, plan);
    hide SeqInv, NextRequest;
    var d := NextRequest(q, plan);
    if d.q.head != [] {
      var rq := d.q.head[0].(started := true);
      PopKeepsFirst(d.q.head);
      if !QueuedBarrier(rq) {
        FirstOverRest(d.q.head, rq);
      }
    }
    hide ProxyFirst;
  }

  lemma FirstOverRest(head: seq<Request>, rq: Request)
    requires head != [] && ProxyFirst(head) && !QueuedBarrier(rq)
    requires rq == head[0].(started := true)
    ensures ProxyFirst([rq] + head[1..])
  {
    var h := [rq] + head[1..];
    forall i, j | BarrierAt(h, i) && i < j < |h|
      ensures !h[j].IsProxy()
    {
      assert BarrierAt(head, i) && h[j] == head[j];
    }
  }

  lemma FetchTag(q: Queue, plan: seq<nat>)
    requires TagInv(q)
    ensures TagInv(Fetch(q, plan).q)
  {
    PeekTag(q, plan);
    FetchKeeps(q, plan);
    hide SeqInv, Peek;
    if Peek(q, plan).q.head != [] { PopKeepsFirst(Peek(q, plan).q.head); }
    hide ProxyFirst;
  }

  /** A proxy given back goes before every waiting barrier: the first one has the other
      colour. */
  lemma RequeueBeforeBarriers(q: Queue, s: nat, i: int)
    requires SeqInv(q) && q.ordseq != ZERO && s < DONE && BarrierAt(q.head, i)
    ensures RequeueIndex(q.orig, q.head, s) <= i
  {
    var at := RequeueIndex(q.orig, q.head, s);
    var lo := |q.ended| + 1;
    var k := FindBarrier(q.head, lo, q.epoch, lo);
    assert PlainBarrier(q.subs, q.head[k]) && PlainBarrier(q.subs, q.orig);
    assert k <= i;
    assert ReqSeq(q.orig, q.head[k]) == DONE;
    hide RequeueIndex;
  }

  lemma RequeueTag(q: Queue, i: nat)
    requires TagInv(q) && i < |q.driver|
    ensures TagInv(Requeue(q, i))
  {
    var r := q.driver[i];
    var s := ReqSeq(q.orig, r);
    RequeueKeeps(q, i);
    var at := if q.ordseq == ZERO then 0 else RequeueIndex(q.orig, q.head, s);
    if r.IsProxy() && q.ordseq != ZERO {
      forall k | BarrierAt(q.head, k)
        ensures at <= k
      {
        RequeueBeforeBarriers(q, s, k);
      }
    }
    InsertKeepsFirst(q.head, at, r.(started := false, soft := true));
    hide SeqInv, ProxyFirst, RequeueIndex, InsertAt;
  }

  lemma CompleteTag(q: Queue, i: nat, error: int)
    requires TagInv(q) && i < |q.driver|
    ensures TagInv(Complete(q, i, error))
  {
    CompleteKeeps(q, i, error);
    OrigUnstarted(q);
    hide SeqInv, ProxyFirst, RemoveAt;
    var r := q.driver[i];
    var q1 := Returned(q, i, error);
    if q.ordseq != ZERO { NotDraining(q1, r); }
    var q2 := CompletedRequest(q1, r);
    CompleteSeqFrame(q2, StepBit(r.kind), error);
    TakeBackKeeps(q, i);
    hide CompleteSeq, SeqCore;
  }

  lemma CompleteSeqFrame(q: Queue, seqs: Word, error: int)
    ensures var q' := CompleteSeq(q, seqs, error);
      && q'.head == q.head && q'.ordered == q.ordered && q'.nextOrdered == q.nextOrdered
      && (q'.ordseq == ZERO || q'.ordseq == q.ordseq.Or(seqs))
  {
  }

  lemma AddTag(q: Queue, r: Request, elvpriv: bool, where: Where, plan: seq<Move>)
    requires TagInv(q) && Enabled(q, DoAdd(r, elvpriv, where, plan))
    ensures TagInv(Add(q, r, elvpriv, where, plan))
  {
    AddKeeps(q, r, elvpriv, where, plan);
    hide SeqInv;
    var c := r.(color := q.ordcolor, soft := true);
    match InsertionPoint(r, elvpriv, where) {
      case Front =>
        InsertKeepsFirst(q.head, 0, c);
        assert InsertAt(q.head, 0, c) == [c] + q.head;
      case Back =>
        DrainTag(q, plan);
        AppendKeepsFirst(DrainElevator(q, plan).head, c);
      case Sort =>
    }
    hide ProxyFirst;
  }

  lemma AppendKeepsFirst(head: seq<Request>, c: Request)
    requires ProxyFirst(head) && !c.IsProxy()
    ensures ProxyFirst(head + [c])
  {
    forall i, j | BarrierAt(head + [c], i) && i < j < |head| + 1
      ensures !(head + [c])[j].IsProxy()
    {
      assert BarrierAt(head, i);
    }
  }

  lemma StepKeepsTagInv(q: Queue, st: Step)
    requires TagInv(q) && Enabled(q, st) && !st.DoSetOrdered?
    ensures TagInv(Next(q, st))
  {
    StepKeepsSeqInv(q, st);
    match st
    case DoAdd(r, elvpriv, where, drain) => AddTag(q, r, elvpriv, where, drain);
    case DoDispatch(m) => DispatchTag(q, m);
    case DoPeek(plan) => PeekTag(q, plan);
    case DoFetch(plan) => FetchTag(q, plan);
    case DoRequeue(i) => RequeueTag(q, i);
    case DoComplete(i, error) => CompleteTag(q, i, error);
    case DoBarError(error) => hide SeqInv, ProxyFirst;
  }

  // ----- A queue that cannot order requests ------------------------------------------

  lemma StepRunsNoSequence(q: Queue, st: Step)
    requires q.nextOrdered == ORDERED_NONE && q.ordseq == ZERO && Enabled(q, st) && !st.DoSetOrdered?
    requires st.DoComplete? ==> !q.driver[st.i].IsProxy()
    requires SeqInv(q)
    ensures Next(q, st).nextOrdered == ORDERED_NONE && Next(q, st).ordseq == ZERO
  {
    match st
    case DoPeek(plan) => NextRunsNoSequence(q, plan);
    case DoFetch(plan) => NextRunsNoSequence(q, plan);
    case DoAdd(r, elvpriv, where, drain) =>
      if InsertionPoint(r, elvpriv, where).Back? { DrainKeeps(q, drain); }
      hide SeqInv, DrainElevator, Drains;
    case _ => hide SeqInv;
  }

  lemma NextRunsNoSequence(q: Queue, plan: seq<nat>)
    requires q.nextOrdered == ORDERED_NONE && q.ordseq == ZERO
    ensures NextRequest(q, plan).q.nextOrdered == ORDERED_NONE && NextRequest(q, plan).q.ordseq == ZERO
    decreases |plan|, |q.head|
  {
    if q.head != [] {
      if !DoOrdered(q).keep {
        DoOrderedShrinks(q);
        NextRunsNoSequence(DoOrdered(q).q, plan);
      }
    } else if plan != [] && plan[0] < |q.sched| {
      NextRunsNoSequence(Dispatch(q, Move(plan[0], 0)), plan[1..]);
    }
  }

  // ----- Runs of a queue whose mode does not change ----------------------------------

  predicate IsFixedRun(q: Queue, steps: seq<Step>)
    decreases steps
  {
    steps == [] ||
    (Enabled(q, steps[0]) && !steps[0].DoSetOrdered? && IsFixedRun(Next(q, steps[0]), steps[1..]))
  }

  function FixedRunTo(q: Queue, steps: seq<Step>): Queue
    requires IsFixedRun(q, steps)
    decreases steps
  {
    if steps == [] then q else FixedRunTo(Next(q, steps[0]), steps[1..])
  }

  /** A sequence runs, the driver has nothing, and nothing is handed to it. */
  ghost predicate Stuck(q: Queue) {
    q.ordseq != ZERO && q.driver == [] && forall plan :: NextRequest(q, plan).rq.None?
  }

  /** What holds all along in each mode but plain tag ordering. */
  ghost predicate ModeInv(q: Queue) {
    Inv(q) || TagInv(q) || (SeqInv(q) && q.nextOrdered == ORDERED_NONE && q.ordseq == ZERO)
  }

  lemma StepKeepsModeInv(q: Queue, st: Step)
    requires ModeInv(q) && Enabled(q, st) && !st.DoSetOrdered?
    ensures ModeInv(Next(q, st))
  {
    if Inv(q) {
      StepKeepsInv(q, st);
    } else if TagInv(q) {
      StepKeepsTagInv(q, st);
    } else {
      NoProxies(q);
      StepKeepsSeqInv(q, st);
      StepRunsNoSequence(q, st);
    }
    hide Inv, TagInv, SeqInv, Next;
  }

  lemma {:induction false} FixedRunsKeepModeInv(q: Queue, steps: seq<Step>)
    requires ModeInv(q) && IsFixedRun(q, steps)
    ensures ModeInv(FixedRunTo(q, steps))
    decreases steps
  {
    hide ModeInv, Enabled, Next;
    if steps != [] {
      StepKeepsModeInv(q, steps[0]);
      FixedRunsKeepModeInv(Next(q, steps[0]), steps[1..]);
    }
  }

  /** By tag, whatever is at the head is let through unless it is a waiting barrier, and no
      barrier waits in front of a proxy. */
  lemma TagNeverStuck(q: Queue)
    requires TagInv(q) && q.ordseq != ZERO && q.driver == []
    ensures q.head != [] && DoOrdered(q) == Decision(q, true, Some(q.head[0]))
  {
    var k := if !q.ordseq.preflush then PreFlush else if !q.ordseq.bar then BarProxy else PostFlush;
    assert Tally(q.head, ByKind(k)) + Tally(q.driver, ByKind(k)) == 1;
    var i := TallyWitness(q.head, ByKind(k));
    assert !BarrierAt(q.head, 0);
    hide SeqInv;
  }

  lemma ModeInvNotStuck(q: Queue)
    requires ModeInv(q)
    ensures !Stuck(q)
  {
    if q.ordseq != ZERO && q.driver == [] {
      if Inv(q) {
        NeverStuck(q, []);
      } else {
        TagNeverStuck(q);
        assert NextRequest(q, []).rq.Some? by { hide ModeInv, SeqInv, DoOrdered; }
      }
    }
  }

  lemma InitialModeInv(q: Queue)
    requires Initial(q) && q.nextOrdered != ORDERED_TAG
    ensures ModeInv(q)
  {
    InitialSeqInv(q);
    if DrainMode(q.nextOrdered) { InitialInv(q); }
    hide SeqInv;
  }

  // ----- The mode in which it does get stuck -----------------------------------------

  const FIRST := Request(0, 0, Fs, false, false, false, false, false, false, 0, 8)
  const WRITE_BARRIER := Request(1, 0, Fs, true, false, false, false, false, true, 8, 8)
  const EMPTY_BARRIER := Request(2, 1, Fs, true, false, false, false, false, true, 0, 0)

  function TagQueue(): Queue {
    Queue([], [], [], 0, false, ORDERED_TAG, ORDERED_TAG, ZERO, 0, FIRST, [], 0, {}, [], [])
  }

  /** The first request is at the driver and a barrier is queued. */
  function HalfWay(): Queue {
    TagQueue().(
      head := [WRITE_BARRIER.(soft := true)], driver := [FIRST.(soft := true, started := true)], inFlight := 1,
      ordcolor := true, subs := [Sub(0, false, true), Sub(0, true, true)], epoch := 1)
  }

  /** The barrier's data was sent with a tag, past the first request, ... */
  function BarrierIssued(): Queue {
    var b := WRITE_BARRIER.(soft := true);
    HalfWay().(
      head := [], driver := HalfWay().driver + [Proxy(b, BarProxy).(started := true)], inFlight := 2,
      orig := b, ordseq := Word(true, true, true, false, true))
  }

  /** ... and completed before it. */
  function BarrierDone(): Queue {
    BarrierIssued().(
      driver := HalfWay().driver, inFlight := 1, ordseq := ZERO, done := {1},
      ended := [Ended(WRITE_BARRIER.(soft := true), 0, [], true)])
  }

  function EmptyBarrierQueued(): Queue {
    BarrierDone().(
      head := [EMPTY_BARRIER.(color := true, soft := true)], ordcolor := false, epoch := 2,
      subs := [Sub(0, false, true), Sub(0, true, true), Sub(1, true, true)])
  }

  /** The empty barrier waits for the queue to drain, but the one request it waits for is
      behind it in the queue, with the colour of requests submitted later. */
  function StuckQueue(): Queue {
    EmptyBarrierQueued().(
      head := [FIRST.(soft := true)], driver := [], inFlight := 0,
      orig := EMPTY_BARRIER.(color := true, soft := true),
      ordered := Ordered(true, false, false, false, false, false),
      ordseq := Word(true, false, true, true, true))
  }

  lemma FixedStep(q: Queue, st: Step, rest: seq<Step>)
    requires Enabled(q, st) && !st.DoSetOrdered? && IsFixedRun(Next(q, st), rest)
    ensures IsFixedRun(q, [st] + rest)
    ensures FixedRunTo(q, [st] + rest) == FixedRunTo(Next(q, st), rest)
  {
    assert ([st] + rest)[1..] == rest;
  }

  lemma FromTagQueue(rest: seq<Step>) returns (steps: seq<Step>)
    requires IsFixedRun(HalfWay(), rest)
    ensures IsFixedRun(TagQueue(), steps) && FixedRunTo(TagQueue(), steps) == FixedRunTo(HalfWay(), rest)
  {
    var q0 := TagQueue();
    var f := FIRST.(soft := true);
    var add0, fetch, add1 := DoAdd(FIRST, false, Back, []), DoFetch([]), DoAdd(WRITE_BARRIER, false, Back, []);
    var q1 := q0.(head := [f], subs := [Sub(0, false, true)]);
    assert Next(q0, add0) == q1;
    var q2 := q1.(head := [], driver := [f.(started := true)], inFlight := 1);
    assert NextRequest(q1, []) == Decision(q1, true, Some(f));
    assert Next(q1, fetch) == q2;
    assert Next(q2, add1) == HalfWay();
    hide Next, HalfWay, NextRequest;
    FixedStep(q2, add1, rest);
    FixedStep(q1, fetch, [add1] + rest);
    FixedStep(q0, add0, [fetch] + ([add1] + rest));
    steps := [add0] + ([fetch] + ([add1] + rest));
  }

  lemma FromHalfWay(rest: seq<Step>) returns (steps: seq<Step>)
    requires IsFixedRun(EmptyBarrierQueued(), rest)
    ensures IsFixedRun(HalfWay(), steps) && FixedRunTo(HalfWay(), steps) == FixedRunTo(EmptyBarrierQueued(), rest)
  {
    hide Next, Enabled, EmptyBarrierQueued, BarrierIssued, BarrierDone, HalfWay;
    var q0, q1, q2 := HalfWay(), BarrierIssued(), BarrierDone();
    var fetch, end, add := DoFetch([]), DoComplete(1, 0), DoAdd(EMPTY_BARRIER, false, Back, []);
    IssueBarrier();
    EndBarrierByTag();
    QueueEmptyBarrier();
    FixedStep(q2, add, rest);
    FixedStep(q1, end, [add] + rest);
    FixedStep(q0, fetch, [end] + ([add] + rest));
    steps := [fetch] + ([end] + ([add] + rest));
  }

  lemma QueueEmptyBarrier()
    ensures Enabled(BarrierDone(), DoAdd(EMPTY_BARRIER, false, Back, []))
    ensures Next(BarrierDone(), DoAdd(EMPTY_BARRIER, false, Back, [])) == EmptyBarrierQueued()
  {
  }

  lemma IssueBarrier()
    ensures Enabled(HalfWay(), DoFetch([]))
    ensures Next(HalfWay(), DoFetch([])) == BarrierIssued()
  {
    var q0 := HalfWay();
    var b := WRITE_BARRIER.(soft := true);
    var p := Proxy(b, BarProxy);
    var s := q0.(head := [p], orig := b, ordseq := Word(true, true, true, false, true));
    assert DoOrdered(q0) == Decision(s, true, Some(p));
    hide DoOrdered;
  }

  /** A bar proxy comes back while it is all that a sequence waits for. */
  lemma LastStepByTag(q: Queue, i: nat)
    requires i < |q.driver| && q.driver[i].kind.BarProxy? && q.ordseq == Word(true, true, true, false, true)
    ensures Complete(q, i, 0) ==
            EndBarrier(q.(driver := RemoveAt(q.driver, i), inFlight := q.inFlight - Count(q.driver[i]), ordseq := ZERO),
                       Ended(q.orig, q.orderr, q.reported, true))
  {
    hide RemoveAt, EndBarrier;
  }

  lemma EndBarrierByTag()
    ensures Enabled(BarrierIssued(), DoComplete(1, 0))
    ensures Next(BarrierIssued(), DoComplete(1, 0)) == BarrierDone()
  {
    hide Complete, RemoveAt, EndBarrier, BarrierIssued, BarrierDone;
    var q := BarrierIssued();
    IssuedFacts();
    SecondRemoved();
    LastStepByTag(q, 1);
    BarrierDoneIs();
  }

  lemma IssuedFacts()
    ensures var q := BarrierIssued();
            |q.driver| == 2 && q.driver[1].kind.BarProxy? && Count(q.driver[1]) == 1
            && q.ordseq == Word(true, true, true, false, true)
  {
  }

  lemma BarrierDoneIs()
    ensures var q := BarrierIssued();
            EndBarrier(q.(driver := HalfWay().driver, inFlight := q.inFlight - 1, ordseq := ZERO),
                       Ended(q.orig, q.orderr, q.reported, true)) == BarrierDone()
  {
    var q := BarrierIssued();
    var e := Ended(q.orig, q.orderr, q.reported, true);
    assert Count(q.orig) == 0 && q.orig.stamp == 1;
    OnlyOne(q.ended, q.done, e, 1);
    hide HalfWay;
  }

  lemma OnlyOne(ended: seq<Ended>, done: set<nat>, e: Ended, stamp: nat)
    requires ended == [] && done == {}
    ensures ended + [e] == [e] && done + {stamp} == {stamp}
  {
  }

  lemma SecondRemoved()
    ensures RemoveAt(BarrierIssued().driver, 1) == HalfWay().driver
  {
  }

  lemma ToStuckQueue() returns (steps: seq<Step>)
    ensures IsFixedRun(EmptyBarrierQueued(), steps)
    ensures FixedRunTo(EmptyBarrierQueued(), steps) == StuckQueue()
  {
    var q0 := EmptyBarrierQueued();
    var peek, requeue := DoPeek([]), DoRequeue(0);
    var q1 := q0.(head := [], orig := q0.head[0], ordered := Ordered(true, false, false, false, false, false),
                  ordseq := Word(true, false, true, true, true));
    assert DoOrdered(q0) == Decision(q1, true, None);
    assert Next(q0, peek) == q1;
    assert RemoveAt(q1.driver, 0) == [];
    assert Next(q1, requeue) == StuckQueue();
    hide Next, StuckQueue, DoOrdered;
    assert IsFixedRun(StuckQueue(), []) && FixedRunTo(StuckQueue(), []) == StuckQueue();
    FixedStep(q1, requeue, []);
    FixedStep(q0, peek, [requeue] + []);
    steps := [peek] + ([requeue] + []);
  }

  // ----- How long it stays stuck -----------------------------------------------------

  /** The head of the queue waits for a drain, the driver has nothing, and nothing is sorted
      past the head. */
  predicate Blocked(q: Queue) {
    && q.ordseq != ZERO && CurSeq(q.ordseq) == DRAIN && !q.ordered.byTag && q.driver == []
    && q.head != [] && !q.head[0].kind.Special? && q.head[0].StopsSort() && ReqSeq(q.orig, q.head[0]) > DRAIN
  }

  lemma BlockedIsStuck(q: Queue)
    requires Blocked(q)
    ensures Stuck(q) && forall plan :: NextRequest(q, plan) == Decision(q, true, None)
  {
    assert DoOrdered(q) == Decision(q, true, None);
    hide DoOrdered;
  }

  /** Puts a request in front of the dispatch queue; the code does this with requests that
      are not fs requests only. */
  predicate InFront(st: Step) { st.DoAdd? && st.where.Front? }

  lemma {:induction false} DrainKeepsHead(q: Queue, plan: seq<Move>)
    requires Drains(q, plan) && q.head != [] && q.head[0].StopsSort()
    ensures var d := DrainElevator(q, plan); d.head != [] && d.head[0] == q.head[0]
    decreases plan
  {
    if plan != [] {
      BehindHead(q, plan[0]);
      hide Dispatch, CanDispatch;
      DrainKeepsHead(Dispatch(q, plan[0]), plan[1..]);
    }
  }

  /** The elevator sorts nothing past such a request. */
  lemma BehindHead(q: Queue, m: Move)
    requires CanDispatch(q, m) && q.head != [] && q.head[0].StopsSort()
    ensures var d := Dispatch(q, m); d.head != [] && d.head[0] == q.head[0]
  {
    assert q.head[0..] == q.head;
  }

  lemma BlockedStep(q: Queue, st: Step)
    requires Blocked(q) && Enabled(q, st) && !st.DoSetOrdered? && !InFront(st)
    ensures Blocked(Next(q, st))
  {
    BlockedIsStuck(q);
    match st
    case DoAdd(r, elvpriv, where, drain) =>
      if InsertionPoint(r, elvpriv, where).Back? { DrainKeepsHead(q, drain); }
    case DoDispatch(m) => BehindHead(q, m);
    case _ => hide NextRequest;
  }

  /** Such a queue stays stuck whatever is submitted, sorted in or asked for, until something
      is put in front of the head. */
  lemma {:induction false} BlockedForGood(q: Queue, steps: seq<Step>)
    requires Blocked(q) && IsFixedRun(q, steps)
    requires forall i :: 0 <= i < |steps| ==> !InFront(steps[i])
    ensures Blocked(FixedRunTo(q, steps)) && Stuck(FixedRunTo(q, steps))
    decreases steps
  {
    hide Enabled, Next, Blocked, Stuck;
    if steps == [] {
      BlockedIsStuck(q);
    } else {
      BlockedStep(q, steps[0]);
      BlockedForGood(Next(q, steps[0]), steps[1..]);
    }
  }

  /** And that does help: a request put in front goes to the driver, and its completion ends
      the drain. */
  lemma FrontUnblocks(q: Queue, r: Request, error: int)
    requires Blocked(q) && q.inFlight == 0 && Fresh(q, r) && r.kind.Special?
    ensures var steps := [DoAdd(r, false, Front, []), DoFetch([]), DoComplete(0, error)];
      && IsFixedRun(q, steps)
      && CurSeq(FixedRunTo(q, steps).ordseq) != DRAIN && !Blocked(FixedRunTo(q, steps))
  {
    hide Next, NextRequest, CompleteSeq;
    var add, fetch, done := DoAdd(r, false, Front, []), DoFetch([]), DoComplete(0, error);
    AddFront(q, r);
    var q1 := Next(q, add);
    FetchFront(q1);
    var q2 := Next(q1, fetch);
    assert q2.head == q.head;
    CompletionDrains(q2, error);
    assert IsFixedRun(Next(q2, done), []) && FixedRunTo(Next(q2, done), []) == Next(q2, done);
    FixedStep(q2, done, []);
    FixedStep(q1, fetch, [done] + []);
    FixedStep(q, add, [fetch] + ([done] + []));
    assert [add] + ([fetch] + ([done] + [])) == [add, fetch, done];
  }

  lemma AddFront(q: Queue, r: Request)
    requires Fresh(q, r) && r.kind.Special?
    ensures Enabled(q, DoAdd(r, false, Front, []))
    ensures var q1 := Next(q, DoAdd(r, false, Front, []));
      && q1.head == [r.(color := q.ordcolor, soft := true)] + q.head
      && q1 == q.(head := q1.head, subs := q1.subs)
  {
  }

  lemma FetchFront(q: Queue)
    requires q.ordseq != ZERO && q.head != [] && q.head[0].kind.Special?
    ensures var r := q.head[0].(started := true);
      Next(q, DoFetch([])) == q.(head := q.head[1..], driver := q.driver + [r], inFlight := q.inFlight + Count(r))
  {
    assert NextRequest(q, []) == Decision(q, true, Some(q.head[0]));
    hide NextRequest;
  }

  lemma CompletionDrains(q: Queue, error: int)
    requires q.ordseq != ZERO && CurSeq(q.ordseq) == DRAIN && |q.driver| == 1 && q.driver[0].kind.Special?
    requires q.inFlight == Count(q.driver[0]) && (q.head == [] || ReqSeq(q.orig, q.head[0]) > DRAIN)
    ensures CurSeq(Next(q, DoComplete(0, error)).ordseq) != DRAIN
  {
  }

  /** Plain tag ordering: a run of eight steps after which an empty barrier is stuck, with a
      request submitted before it uncompleted behind it.  No fs request submitted from then on
      changes that (`BlockedForGood`). */
  lemma PlainTagGetsStuck() returns (steps: seq<Step>)
    ensures Initial(TagQueue()) && IsFixedRun(TagQueue(), steps)
    ensures Stuck(FixedRunTo(TagQueue(), steps)) && Blocked(FixedRunTo(TagQueue(), steps))
  {
    steps := ToStuckQueue();
    steps := FromHalfWay(steps);
    steps := FromTagQueue(steps);
    BlockedIsStuck(StuckQueue());
  }

  /** No run of a queue in this mode gets stuck. */
  ghost predicate Progresses(o: Ordered) {
    forall q0: Queue, steps: seq<Step> ::
      Initial(q0) && q0.nextOrdered == o && IsFixedRun(q0, steps) ==> !Stuck(FixedRunTo(q0, steps))
  }

  /** Of the seven modes a driver can choose, exactly plain tag ordering can get stuck. */
  lemma ProgressByMode(o: Ordered)
    requires Accepted(o)
    ensures Progresses(o) <==> o != ORDERED_TAG
  {
    hide Stuck;
    if o == ORDERED_TAG {
      var steps := PlainTagGetsStuck();
      hide IsFixedRun, FixedRunTo, Accepted;
      assert TagQueue().nextOrdered == o;
    } else {
      forall q0: Queue, steps: seq<Step> | Initial(q0) && q0.nextOrdered == o && IsFixedRun(q0, steps)
        ensures !Stuck(FixedRunTo(q0, steps))
      {
        InitialModeInv(q0);
        hide ModeInv;
        FixedRunsKeepModeInv(q0, steps);
        ModeInvNotStuck(FixedRunTo(q0, steps));
      }
    }
  }
}
