/** Ordering by draining: what holds in every state of every run of a queue whose mode is
    one of the drain modes.  `cur` is always the number of barriers ended so far, which is
    the epoch of the requests that may be at the driver. */
module BarrierDrain {
  import opened Requests
  import opened BarrierModel
  import opened Tallies
  import opened BarrierSequence
  import opened BarrierPlaces

  /** Where a request belongs in the running sequence, by its epoch and not its colour. */
  function Rank(cur: nat, r: Request): nat {
    match r.kind
    case PreFlush => PREFLUSH
    case BarProxy => BAR
    case PostFlush => POSTFLUSH
    case Special => DRAIN
    case Fs => if r.epoch <= cur then DRAIN else DONE
  }

  predicate Entry(running: bool, cur: nat, epoch: nat, r: Request) {
    && (r.kind.Fs? ==>
          && cur <= r.epoch <= epoch && r.color == Odd(r.epoch)
          && (running && r.epoch == cur ==> r.soft && !r.hard))
    && (r.kind.Special? ==> r.soft && !r.hard)
    && (r.IsProxy() ==> r.hard)
  }

  /** Request `a` may stand before request `b` in the dispatch queue. */
  predicate InOrder(running: bool, cur: nat, a: Request, b: Request) {
    && (a.kind.Fs? && b.kind.Fs? ==> a.epoch <= b.epoch && (a.hard ==> a.epoch < b.epoch))
    && (running && !a.kind.Special? && !b.kind.Special? ==> Rank(cur, a) <= Rank(cur, b))
  }

  ghost predicate HeadInv(head: seq<Request>, running: bool, cur: nat, epoch: nat) {
    && (forall i :: 0 <= i < |head| ==> Entry(running, cur, epoch, head[i]))
    && (forall i, j :: 0 <= i < j < |head| ==> InOrder(running, cur, head[i], head[j]))
  }

  /** The driver has requests of the current epoch, and the proxy whose turn it is. */
  ghost predicate DriverInv(driver: seq<Request>, w: Word, cur: nat) {
    forall i :: 0 <= i < |driver| ==>
      && (driver[i].kind.Fs? ==> driver[i].epoch == cur && driver[i].color == Odd(cur))
      && (driver[i].IsProxy() ==> w.started && Rank(cur, driver[i]) == CurSeq(w))
      && (driver[i].hard <==> driver[i].IsProxy())
  }

  ghost predicate SchedInv(sched: seq<Request>, epoch: nat) {
    forall i :: 0 <= i < |sched| ==> sched[i].epoch == epoch && sched[i].color == Odd(epoch)
  }

  ghost predicate NoneOf(s: seq<Request>, cur: nat) {
    forall i :: 0 <= i < |s| && s[i].kind.Fs? ==> s[i].epoch != cur
  }

  /** Something will bring the wait for earlier requests to its end. */
  predicate Waiting(head: seq<Request>, driver: seq<Request>, orig: Request) {
    driver != [] || (head != [] && ReqSeq(orig, head[0]) == DRAIN)
  }

  ghost predicate DrainState(w: Word, head: seq<Request>, driver: seq<Request>, orig: Request, cur: nat) {
    w != ZERO ==>
      && (w.drain ==> NoneOf(head, cur) && NoneOf(driver, cur))
      && (!w.drain ==> Waiting(head, driver, orig))
  }

  ghost predicate DrainInv(q: Queue) {
    && DrainMode(q.nextOrdered) && (q.ordseq != ZERO ==> !q.ordered.byTag)
    && HeadInv(q.head, q.ordseq != ZERO, |q.ended|, q.epoch)
    && SchedInv(q.sched, q.epoch) && DriverInv(q.driver, q.ordseq, |q.ended|)
    && DrainState(q.ordseq, q.head, q.driver, q.orig, |q.ended|)
  }

  ghost predicate Inv(q: Queue) { SeqInv(q) && PlaceInv(q) && DrainInv(q) }

  lemma InitialInv(q: Queue)
    requires Initial(q) && DrainMode(q.nextOrdered)
    ensures Inv(q)
  {
    InitialSeqInv(q);
    InitialPlaceInv(q);
  }

  // ----- Lists -----------------------------------------------------------------------

  lemma InsertKeepsHeadInv(head: seq<Request>, at: nat, r: Request, running: bool, cur: nat, epoch: nat)
    requires at <= |head| && HeadInv(head, running, cur, epoch) && Entry(running, cur, epoch, r)
    requires forall i :: 0 <= i < at ==> InOrder(running, cur, head[i], r)
    requires forall i :: at <= i < |head| ==> InOrder(running, cur, r, head[i])
    ensures HeadInv(InsertAt(head, at, r), running, cur, epoch)
  {
    InsertAtIndices(head, at, r);
    hide InsertAt, Entry, InOrder;
  }

  lemma PopKeepsHeadInv(head: seq<Request>, running: bool, cur: nat, epoch: nat)
    requires head != [] && HeadInv(head, running, cur, epoch)
    ensures HeadInv(head[1..], running, cur, epoch)
  {
    hide Entry, InOrder;
  }

  /** Without accounted requests at the driver, no file system request is there. */
  lemma NothingInFlight(driver: seq<Request>, cur: nat)
    requires DriverOk(driver) && Tally(driver, InFlight) == 0
    ensures NoneOf(driver, cur)
  {
    TallyNone(driver, InFlight);
  }

  /** One colour bit is enough: the first file system request in the queue that is not of
      the current epoch is of the next one, so colours tell the two apart up to there. */
  lemma ColorTells(q: Queue, i: nat)
    requires SeqInv(q) && DrainInv(q) && q.ordseq != ZERO && i < |q.head| && q.head[i].kind.Fs?
    requires forall j :: 0 <= j < i && q.head[j].kind.Fs? ==> q.head[j].epoch == |q.ended|
    ensures q.head[i].epoch <= |q.ended| + 1
    ensures ReqSeq(q.orig, q.head[i]) == Rank(|q.ended|, q.head[i])
  {
    var cur := |q.ended|;
    assert Entry(true, cur, q.epoch, q.head[i]);
    if cur + 1 < q.epoch {
      var k := FindBarrier(q.head, Oldest(q), q.epoch, cur + 1);
      assert k == i || InOrder(true, cur, q.head[i], q.head[k]);
    }
    hide ProxySet, BarrierQueue, Registered, EndedInOrder, HeadInv;
  }

  /** When no sequence runs, a file system request at the head is of the current epoch. */
  lemma HeadIsCurrent(q: Queue)
    requires SeqInv(q) && DrainInv(q) && q.ordseq == ZERO && q.head != []
    requires q.head[0].kind.Fs?
    ensures q.head[0].epoch == |q.ended|
  {
    var cur := |q.ended|;
    assert Entry(false, cur, q.epoch, q.head[0]);
    if cur < q.epoch {
      var i := FindBarrier(q.head, Oldest(q), q.epoch, cur);
      assert i == 0 || InOrder(false, cur, q.head[0], q.head[i]);
    }
  }

  /** What the elevator sorts past is of the newest epoch. */
  lemma TailIsNewest(q: Queue, at: nat)
    requires SeqInv(q) && DrainInv(q) && at <= |q.head| && Unstopped(q.head[at..])
    ensures forall j :: at <= j < |q.head| ==> q.head[j].kind.Fs? && q.head[j].epoch == q.epoch
  {
    var running := q.ordseq != ZERO;
    assert forall j :: at <= j < |q.head| ==> q.head[at..][j - at] == q.head[j];
    forall j | at <= j < |q.head|
      ensures q.head[j].kind.Fs? && q.head[j].epoch == q.epoch
    {
      assert Entry(running, |q.ended|, q.epoch, q.head[j]);
      forall i | BarrierAt(q.head, i)
        ensures q.head[i].epoch != q.head[j].epoch
      {
        assert i < at;
        assert InOrder(running, |q.ended|, q.head[i], q.head[j]);
      }
      assert !HasBarrier(q.head, q.head[j].epoch);
    }
  }

  lemma RunningEpoch(q: Queue)
    requires SeqInv(q) && q.ordseq != ZERO
    ensures |q.ended| < q.epoch
  {
    EpochsBound(q);
  }

  // ----- Every operation keeps it ----------------------------------------------------

  lemma DispatchKeepsDrain(q: Queue, m: Move)
    requires SeqInv(q) && DrainInv(q) && CanDispatch(q, m)
    ensures DrainInv(Dispatch(q, m))
  {
    var r := q.sched[m.from];
    var running := q.ordseq != ZERO;
    var cur := |q.ended|;
    EpochsBound(q);
    TailIsNewest(q, m.at);
    assert r.kind.Fs? && !r.hard && r.epoch == q.epoch;
    forall i | 0 <= i < m.at
      ensures InOrder(running, cur, q.head[i], r)
    {
      assert Entry(running, cur, q.epoch, q.head[i]);
      assert BarrierAt(q.head, i) ==> q.head[i].epoch < q.epoch;
    }
    InsertKeepsHeadInv(q.head, m.at, r, running, cur, q.epoch);
    InsertAtIndices(q.head, m.at, r);
    DispatchKeepsDrainState(q, m.at, r);
    hide HeadInv, InsertAt, SeqInv, DriverInv, DrainState;
  }

  lemma DispatchKeepsDrainState(q: Queue, at: nat, r: Request)
    requires SeqInv(q) && DrainInv(q) && at <= |q.head|
    requires r.kind.Fs? && r.epoch == q.epoch && Unstopped(q.head[at..])
    ensures DrainState(q.ordseq, InsertAt(q.head, at, r), q.driver, q.orig, |q.ended|)
  {
    if q.ordseq != ZERO {
      RunningEpoch(q);
      InsertAtIndices(q.head, at, r);
      if !q.ordseq.drain && q.driver == [] {
        assert Entry(true, |q.ended|, q.epoch, q.head[0]);
        if at == 0 {
          TailIsNewest(q, 0);
          ColorTells(q, 0);
        }
      }
      hide InsertAt, HeadInv, SeqInv;
    }
  }

  lemma DrainKeepsDrain(q: Queue, plan: seq<Move>)
    requires SeqInv(q) && DrainInv(q) && Drains(q, plan)
    ensures DrainInv(DrainElevator(q, plan))
    decreases plan
  {
    hide SeqInv, DrainInv;
    if plan != [] {
      DispatchKeeps(q, plan[0]);
      DispatchKeepsDrain(q, plan[0]);
      DrainKeepsDrain(Dispatch(q, plan[0]), plan[1..]);
    }
  }

  /** Completing steps, where the steps after that are as `w` says. */
  lemma CompleteSeqKeepsDrain(q: Queue, seqs: Word, error: int)
    requires DrainMode(q.nextOrdered) && !q.ordered.byTag && q.ordseq.started
    requires HeadInv(q.head, true, |q.ended|, q.epoch) && SchedInv(q.sched, q.epoch)
    requires DriverInv(q.driver, q.ordseq.Or(seqs), |q.ended|)
    requires DrainState(q.ordseq.Or(seqs), q.head, q.driver, q.orig, |q.ended|)
    requires ProxySet(q.head, q.driver, Pending(q.ordseq.Or(seqs)))
    ensures DrainInv(CompleteSeq(q, seqs, error))
  {
    var w := q.ordseq.Or(seqs);
    if CurSeq(w) == DONE {
      FinishHead(q.head, |q.ended|, q.epoch);
      FinishDriver(q.driver, w, |q.ended|);
    }
    hide HeadInv, SchedInv, DriverInv, ProxySet;
  }

  lemma FinishHead(head: seq<Request>, cur: nat, epoch: nat)
    requires HeadInv(head, true, cur, epoch) && NoneOf(head, cur)
    ensures HeadInv(head, false, cur + 1, epoch)
  {
    forall i | 0 <= i < |head|
      ensures Entry(false, cur + 1, epoch, head[i])
    {
      assert Entry(true, cur, epoch, head[i]);
    }
    forall i, j | 0 <= i < j < |head|
      ensures InOrder(false, cur + 1, head[i], head[j])
    {
      assert InOrder(true, cur, head[i], head[j]);
    }
  }

  lemma FinishDriver(driver: seq<Request>, w: Word, cur: nat)
    requires DriverInv(driver, w, cur) && NoneOf(driver, cur) && CurSeq(w) == DONE
    ensures DriverInv(driver, ZERO, cur + 1)
  {
  }

  /** All but special requests in `h` rank at least `rank`. */
  ghost predicate RankAtLeast(h: seq<Request>, cur: nat, rank: nat) {
    forall i :: 0 <= i < |h| && !h[i].kind.Special? ==> rank <= Rank(cur, h[i])
  }

  /** What follows a barrier whose sequence starts. */
  lemma StartRest(head: seq<Request>, cur: nat, epoch: nat)
    requires HeadInv(head, false, cur, epoch) && BarrierAt(head, 0) && head[0].epoch == cur
    requires forall i :: 0 <= i < |head| ==> !head[i].IsProxy()
    ensures HeadInv(head[1..], true, cur, epoch) && RankAtLeast(head[1..], cur, DONE)
  {
    var h := head[1..];
    forall i | 0 <= i < |h|
      ensures Entry(true, cur, epoch, h[i]) && (h[i].kind.Fs? ==> h[i].epoch > cur)
    {
      assert Entry(false, cur, epoch, head[i + 1]);
      assert InOrder(false, cur, head[0], head[i + 1]);
    }
    forall i, j | 0 <= i < j < |h|
      ensures InOrder(true, cur, h[i], h[j])
    {
      assert InOrder(false, cur, head[i + 1], head[j + 1]);
    }
  }

  lemma PushProxyInv(s: seq<Request>, h: seq<Request>, cur: nat, epoch: nat, rank: nat, below: nat)
    requires |s| <= 1 && (s != [] ==> s[0].IsProxy() && s[0].hard && Rank(cur, s[0]) == rank)
    requires HeadInv(h, true, cur, epoch) && rank <= below && RankAtLeast(h, cur, below)
    ensures HeadInv(s + h, true, cur, epoch) && RankAtLeast(s + h, cur, rank)
  {
    if s == [] {
      assert s + h == h;
    } else {
      InsertKeepsHeadInv(h, 0, s[0], true, cur, epoch);
      assert InsertAt(h, 0, s[0]) == s + h;
      hide HeadInv;
    }
  }

  /** The dispatch queue when a sequence starts. */
  lemma StartHeadInv(head: seq<Request>, m: Ordered, cur: nat, epoch: nat)
    requires HeadInv(head, false, cur, epoch) && BarrierAt(head, 0) && head[0].epoch == cur
    requires forall i :: 0 <= i < |head| ==> !head[i].IsProxy()
    ensures HeadInv(Proxies(head[0], m) + head[1..], true, cur, epoch)
    ensures NoneOf(Proxies(head[0], m) + head[1..], cur)
  {
    StartRest(head, cur, epoch);
    hide HeadInv, RankAtLeast;
    var bar := head[0];
    var post := ProxyIf(m.postflush, bar, PostFlush);
    var mid := ProxyIf(m.bar, bar, BarProxy);
    var pre := ProxyIf(m.preflush, bar, PreFlush);
    PushProxyInv(post, head[1..], cur, epoch, POSTFLUSH, DONE);
    PushProxyInv(mid, post + head[1..], cur, epoch, BAR, POSTFLUSH);
    PushProxyInv(pre, mid + (post + head[1..]), cur, epoch, PREFLUSH, BAR);
    Regroup(pre, mid, post, head[1..]);
    RankedNoneOf(Proxies(bar, m) + head[1..], cur);
  }

  lemma RankedNoneOf(h: seq<Request>, cur: nat)
    requires RankAtLeast(h, cur, PREFLUSH)
    ensures NoneOf(h, cur)
  {
  }

  lemma NoProxies(q: Queue)
    requires SeqInv(q) && q.ordseq == ZERO
    ensures forall i :: 0 <= i < |q.head| ==> !q.head[i].IsProxy()
    ensures forall i :: 0 <= i < |q.driver| ==> !q.driver[i].IsProxy()
  {
    forall k: Kind | k.PreFlush? || k.BarProxy? || k.PostFlush?
      ensures forall i :: 0 <= i < |q.head| ==> !Passes(ByKind(k), q.head[i])
      ensures forall i :: 0 <= i < |q.driver| ==> !Passes(ByKind(k), q.driver[i])
    {
      TallyNone(q.head, ByKind(k));
      TallyNone(q.driver, ByKind(k));
    }
    forall i | 0 <= i < |q.head|
      ensures !q.head[i].IsProxy()
    {
      assert !Passes(ByKind(PreFlush), q.head[i]) && !Passes(ByKind(BarProxy), q.head[i]) &&
             !Passes(ByKind(PostFlush), q.head[i]);
    }
    forall i | 0 <= i < |q.driver|
      ensures !q.driver[i].IsProxy()
    {
      assert !Passes(ByKind(PreFlush), q.driver[i]) && !Passes(ByKind(BarProxy), q.driver[i]) &&
             !Passes(ByKind(PostFlush), q.driver[i]);
    }
  }

  lemma StartOrderedKeepsDrain(q: Queue)
    requires Inv(q) && q.ordseq == ZERO && BarrierAt(q.head, 0)
    ensures DrainInv(StartOrdered(q).q)
  {
    var bar := q.head[0];
    var m := SequenceMode(q.nextOrdered, bar.sectors);
    var rest := q.head[1..];
    NoProxies(q);
    HeadIsOldest(q.head, |q.ended|, q.epoch);
    StartHeadInv(q.head, m, |q.ended|, q.epoch);
    PopKeepsProxies(q.head, q.driver, NO_KINDS);
    StartProxies(bar, m, rest, q.driver);
    assert PlainBarrier(q.subs, bar);
    if q.inFlight == 0 { NothingInFlight(q.driver, |q.ended|); }
    var q1 := Begun(q);
    var w := q1.ordseq.Or(Skipped(m, q1.inFlight));
    StartDriver(q.driver, w, |q.ended|);
    assert q.inFlight != 0 ==> q.driver != [];
    hide HeadInv, SchedInv, DriverInv, ProxySet, SeqInv, PlaceInv, Proxies, NoneOf;
    CompleteSeqKeepsDrain(q1, Skipped(m, q1.inFlight), 0);
    hide CompleteSeq;
  }

  lemma StartDriver(driver: seq<Request>, w: Word, cur: nat)
    requires DriverInv(driver, ZERO, cur)
    ensures DriverInv(driver, w, cur)
  {
  }

  lemma DoOrderedKeepsDrain(q: Queue)
    requires Inv(q) && q.head != []
    ensures DrainInv(DoOrdered(q).q)
  {
    if q.ordseq == ZERO {
      NoProxyAtHead(q);
      if BarrierAt(q.head, 0) { StartOrderedKeepsDrain(q); }
      hide StartOrdered;
    }
    hide SeqInv, PlaceInv, HeadInv, DriverInv, SchedInv, DrainState;
  }

  /** The request at the head may go to the driver. */
  predicate Issuable(q: Queue) {
    && q.head != [] && !QueuedBarrier(q.head[0])
    && (q.head[0].kind.Fs? ==> q.head[0].epoch == |q.ended|)
    && (q.head[0].IsProxy() ==> q.ordseq.started && Rank(|q.ended|, q.head[0]) == CurSeq(q.ordseq))
  }

  lemma StartIssues(q: Queue)
    requires Inv(q) && q.ordseq == ZERO && BarrierAt(q.head, 0)
    requires StartOrdered(q).keep && StartOrdered(q).rq.Some?
    ensures Issuable(StartOrdered(q).q)
  {
    hide Inv;
  }

  /** What a running sequence lets through: earlier requests while it waits for them to
      drain, then the proxy whose turn it is.  Nothing is let through late. */
  lemma RunningIssues(q: Queue)
    requires Inv(q) && q.ordseq != ZERO && q.head != []
    ensures !q.head[0].kind.Special? ==> CurSeq(q.ordseq) <= ReqSeq(q.orig, q.head[0])
    ensures DoOrdered(q).rq.Some? ==> Issuable(q)
  {
    var r := q.head[0];
    if r.kind.Fs? { ColorTells(q, 0); }
    PopKeepsProxies(q.head, q.driver, Pending(q.ordseq));
    if BarrierAt(q.head, 0) { NextBarrierWaits(q); }
    assert Entry(true, |q.ended|, q.epoch, r);
    assert q.ordseq.started by {
      hide ProxySet, BarrierQueue, Registered, HeadBarriersOk, SchedOk, DriverOk, EndedInOrder, PlainBarrier;
    }
    hide SeqInv, PlaceInv, HeadInv, DriverInv, SchedInv;
  }

  lemma DoOrderedIssues(q: Queue)
    requires Inv(q) && q.head != []
    requires DoOrdered(q).keep && DoOrdered(q).rq.Some?
    ensures Issuable(DoOrdered(q).q)
  {
    if q.ordseq != ZERO {
      RunningIssues(q);
    } else {
      NoProxyAtHead(q);
      if BarrierAt(q.head, 0) {
        assert DoOrdered(q) == StartOrdered(q) by { hide Inv, StartOrdered; }
        StartIssues(q);
        hide StartOrdered;
      } else if q.head[0].kind.Fs? {
        HeadIsCurrent(q);
      }
    }
    hide Inv;
  }

  lemma DoOrderedInv(q: Queue)
    requires Inv(q) && q.head != []
    ensures Inv(DoOrdered(q).q)
  {
    DoOrderedKeeps(q);
    DoOrderedPlaces(q);
    DoOrderedKeepsDrain(q);
    hide SeqInv, PlaceInv, DrainInv, DoOrdered;
  }

  lemma DispatchInv(q: Queue, m: Move)
    requires Inv(q) && CanDispatch(q, m)
    ensures Inv(Dispatch(q, m))
  {
    DispatchKeeps(q, m);
    MovePlaces(q, m);
    DispatchKeepsDrain(q, m);
    hide SeqInv, PlaceInv, DrainInv, Dispatch;
  }

  lemma NextRequestInv(q: Queue, plan: seq<nat>)
    requires Inv(q)
    ensures Inv(NextRequest(q, plan).q)
    ensures NextRequest(q, plan).rq.Some? ==>
              && Issuable(NextRequest(q, plan).q)
              && NextRequest(q, plan).rq == Some(NextRequest(q, plan).q.head[0])
    decreases |plan|, |q.head|
  {
    if q.head != [] {
      DoOrderedInv(q);
      DoOrderedKeeps(q);
      if DoOrdered(q).keep {
        if DoOrdered(q).rq.Some? { DoOrderedIssues(q); }
        hide Inv, SeqInv, DoOrdered, Issuable;
      } else {
        DoOrderedShrinks(q);
        hide Inv, SeqInv, DoOrdered, Issuable;
        NextRequestInv(DoOrdered(q).q, plan);
      }
    } else if plan != [] && plan[0] < |q.sched| {
      DispatchInv(q, Move(plan[0], 0));
      hide Inv, Issuable;
      NextRequestInv(Dispatch(q, Move(plan[0], 0)), plan[1..]);
    } else {
      hide Inv;
    }
  }

  lemma StartKeepsHeadInv(head: seq<Request>, running: bool, cur: nat, epoch: nat)
    requires head != [] && HeadInv(head, running, cur, epoch)
    ensures HeadInv([head[0].(started := true)] + head[1..], running, cur, epoch)
  {
    var h := [head[0].(started := true)] + head[1..];
    forall i | 0 <= i < |h|
      ensures Entry(running, cur, epoch, h[i])
    {
      assert Entry(running, cur, epoch, head[i]);
    }
    forall i, j | 0 <= i < j < |h|
      ensures InOrder(running, cur, h[i], h[j])
    {
      assert InOrder(running, cur, head[i], head[j]);
    }
    hide Entry, InOrder;
  }

  /** Marking the request at the head as started. */
  lemma StartInv(q: Queue)
    requires Inv(q) && Issuable(q)
    ensures Inv(q.(head := [q.head[0].(started := true)] + q.head[1..]))
    ensures Issuable(q.(head := [q.head[0].(started := true)] + q.head[1..]))
  {
    StartKeeps(q);
    StartPlaces(q);
    StartKeepsHeadInv(q.head, q.ordseq != ZERO, |q.ended|, q.epoch);
    hide SeqInv, PlaceInv, HeadInv, DriverInv, SchedInv;
  }

  lemma PeekInv(q: Queue, plan: seq<nat>)
    requires Inv(q)
    ensures Inv(Peek(q, plan).q)
    ensures Peek(q, plan).rq.Some? ==>
              && Issuable(Peek(q, plan).q) && Peek(q, plan).q.head[0].started
              && Peek(q, plan).rq == Some(Peek(q, plan).q.head[0])
  {
    NextRequestInv(q, plan);
    if NextRequest(q, plan).rq.Some? { StartInv(NextRequest(q, plan).q); }
    hide Inv, NextRequest, Issuable;
  }

  function HandOver(q: Queue): Queue
    requires q.head != []
  {
    q.(head := q.head[1..], driver := q.driver + [q.head[0]], inFlight := q.inFlight + Count(q.head[0]))
  }

  lemma HandOverInv(q: Queue)
    requires Inv(q) && Issuable(q) && q.head[0].started
    ensures Inv(HandOver(q))
  {
    HandOverKeeps(q);
    HandOverPlaces(q);
    PopKeepsHeadInv(q.head, q.ordseq != ZERO, |q.ended|, q.epoch);
    assert Entry(q.ordseq != ZERO, |q.ended|, q.epoch, q.head[0]);
    hide SeqInv, PlaceInv, HeadInv, SchedInv;
  }

  lemma FetchInv(q: Queue, plan: seq<nat>)
    requires Inv(q)
    ensures Inv(Fetch(q, plan).q)
  {
    PeekInv(q, plan);
    hide Inv, Peek;
    if Peek(q, plan).rq.Some? {
      HandOverInv(Peek(q, plan).q);
      assert Fetch(q, plan).q == HandOver(Peek(q, plan).q);
    }
  }

  /** A proxy given back is put behind no file system request. */
  lemma {:induction false} NoFsBefore(q: Queue, s: nat, i: nat)
    requires SeqInv(q) && DrainInv(q) && q.ordseq != ZERO && NoneOf(q.head, |q.ended|) && s < DONE
    requires i <= RequeueIndex(q.orig, q.head, s)
    ensures forall j :: 0 <= j < i ==> !q.head[j].kind.Fs?
    decreases i
  {
    if i > 0 {
      NoFsBefore(q, s, i - 1);
      if q.head[i - 1].kind.Fs? {
        ColorTells(q, i - 1);
        assert false;
      }
    }
  }

  lemma RequeueProxyOrder(q: Queue, r: Request)
    requires SeqInv(q) && DrainInv(q) && q.ordseq != ZERO && NoneOf(q.head, |q.ended|) && r.IsProxy()
    ensures var at := RequeueIndex(q.orig, q.head, ReqSeq(q.orig, r));
              && (forall i :: 0 <= i < at ==> InOrder(true, |q.ended|, q.head[i], r))
              && (forall i :: at <= i < |q.head| ==> InOrder(true, |q.ended|, r, q.head[i]))
  {
    var cur := |q.ended|;
    var s := ReqSeq(q.orig, r);
    var at := RequeueIndex(q.orig, q.head, s);
    NoFsBefore(q, s, at);
    if at < |q.head| {
      assert Entry(true, cur, q.epoch, q.head[at]);
      assert s <= Rank(cur, q.head[at]) && !q.head[at].kind.Special?;
      forall i | at <= i < |q.head|
        ensures InOrder(true, cur, r, q.head[i])
      {
        assert i == at || InOrder(true, cur, q.head[at], q.head[i]);
      }
    }
    hide SeqInv, HeadInv, RequeueIndex;
  }

  /** Everything but a proxy is put back at the front. */
  lemma RequeueAtFront(q: Queue, r: Request)
    requires SeqInv(q) && DrainInv(q) && !r.IsProxy()
    requires r.kind.Fs? ==> r.epoch == |q.ended| && r.color == Odd(|q.ended|)
    ensures q.ordseq != ZERO ==> ReqSeq(q.orig, r) == DRAIN && RequeueIndex(q.orig, q.head, DRAIN) == 0
    ensures r.kind.Special? || !r.hard ==>
      forall i :: 0 <= i < |q.head| ==> InOrder(q.ordseq != ZERO, |q.ended|, r, q.head[i])
  {
    assert forall i :: 0 <= i < |q.head| ==> Entry(q.ordseq != ZERO, |q.ended|, q.epoch, q.head[i]);
    hide ProxySet, BarrierQueue, Registered, EndedInOrder, HeadInv;
  }

  lemma RequeueKeepsDrain(q: Queue, i: nat)
    requires Inv(q) && i < |q.driver|
    ensures DrainInv(Requeue(q, i))
  {
    var r := q.driver[i];
    var r' := r.(started := false, soft := true);
    var running := q.ordseq != ZERO;
    var cur := |q.ended|;
    var at := if !running then 0 else RequeueIndex(q.orig, q.head, ReqSeq(q.orig, r));
    EpochsBound(q);
    RequeueEntry(q, i);
    if r.IsProxy() {
      TakeBackKeepsProxies(q.head, q.driver, Pending(q.ordseq), i);
      RequeueProxyOrder(q, r');
    } else {
      RequeueAtFront(q, r');
    }
    InsertKeepsHeadInv(q.head, at, r', running, cur, q.epoch);
    RequeueDrainState(q, i, at);
    RemoveKeepsDriver(q.driver, q.ordseq, cur, i);
    hide Inv, SeqInv, PlaceInv, HeadInv, SchedInv, DriverInv, DrainState, RequeueIndex, RemoveAt, InsertAt;
  }

  lemma RequeueDrainState(q: Queue, i: nat, at: nat)
    requires Inv(q) && i < |q.driver| && at <= |q.head|
    requires !q.driver[i].IsProxy() ==> at == 0
    ensures DrainState(q.ordseq, InsertAt(q.head, at, q.driver[i].(started := false, soft := true)),
                       RemoveAt(q.driver, i), q.orig, |q.ended|)
  {
    var r' := q.driver[i].(started := false, soft := true);
    InsertAtIndices(q.head, at, r');
    if !r'.IsProxy() { RequeueAtFront(q, r'); }
    if q.ordseq != ZERO && q.ordseq.drain { RemoveKeepsNone(q.driver, i, |q.ended|); }
    RequeueEntry(q, i);
    hide SeqInv, PlaceInv, HeadInv, SchedInv, RemoveAt, InsertAt, RequeueIndex;
  }

  lemma RequeueEntry(q: Queue, i: nat)
    requires Inv(q) && i < |q.driver|
    ensures Entry(q.ordseq != ZERO, |q.ended|, q.epoch, q.driver[i].(started := false, soft := true))
    ensures !q.driver[i].IsProxy() ==> !q.driver[i].hard
    ensures q.driver[i].IsProxy() ==> q.ordseq.started && q.ordseq.drain && NoneOf(q.head, |q.ended|)
  {
  }

  lemma RemoveKeepsDriver(driver: seq<Request>, w: Word, cur: nat, i: nat)
    requires i < |driver| && DriverInv(driver, w, cur)
    ensures DriverInv(RemoveAt(driver, i), w, cur)
  {
  }

  /** The drain check, when it decides that every earlier request is done, is right. */
  lemma DrainedWhenIdle(q: Queue)
    requires SeqInv(q) && DrainInv(q) && q.ordseq != ZERO
    requires q.head == [] || ReqSeq(q.orig, q.head[0]) > DRAIN
    ensures NoneOf(q.head, |q.ended|)
  {
    var cur := |q.ended|;
    if q.head != [] && q.head[0].kind.Fs? { ColorTells(q, 0); }
    forall i | 0 <= i < |q.head| && q.head[i].kind.Fs?
      ensures q.head[i].epoch != cur
    {
      assert i == 0 || InOrder(true, cur, q.head[0], q.head[i]);
    }
  }

  lemma RemoveKeepsNone(s: seq<Request>, i: nat, cur: nat)
    requires i < |s| && NoneOf(s, cur)
    ensures NoneOf(RemoveAt(s, i), cur)
  {
  }

  /** Completing a request that is no proxy: the queue before the drain check. */
  lemma ReturnPlain(q: Queue, i: nat)
    requires Inv(q) && i < |q.driver| && !q.driver[i].IsProxy()
    ensures var q1 := Returned(q, i, 0).(inFlight := q.inFlight - Count(q.driver[i]));
      && HeadInv(q1.head, q1.ordseq != ZERO, |q1.ended|, q1.epoch) && SchedInv(q1.sched, q1.epoch)
      && DriverInv(q1.driver, q1.ordseq, |q1.ended|) && DriverOk(q1.driver)
      && ProxySet(q1.head, q1.driver, Pending(q1.ordseq))
      && q1.inFlight == Tally(q1.driver, InFlight)
      && (q1.ordseq != ZERO && q1.ordseq.drain ==> NoneOf(q1.head, |q1.ended|) && NoneOf(q1.driver, |q1.ended|))
  {
    RemoveKeepsDriver(q.driver, q.ordseq, |q.ended|, i);
    TakeBackKeepsProxies(q.head, q.driver, Pending(q.ordseq), i);
    ReturnedPlaces(q, i, 0);
    if q.ordseq != ZERO && q.ordseq.drain { RemoveKeepsNone(q.driver, i, |q.ended|); }
    RemoveKeepsDriverOk(q.driver, i);
    hide BarrierQueue, Registered, HeadBarriersOk, SchedOk, EndedInOrder, PlainBarrier,
         HeadInv, SchedInv, DriverInv, ProxySet, NoneOf, Tally, RemoveAt, PlaceInv, DriverOk, Places;
  }

  lemma RemoveKeepsDriverOk(driver: seq<Request>, i: nat)
    requires i < |driver| && DriverOk(driver)
    ensures DriverOk(RemoveAt(driver, i))
  {
  }

  /** The drain check keeps the invariant, whichever way it decides. */
  lemma DrainCheckKeepsDrain(q: Queue, r: Request)
    requires DrainMode(q.nextOrdered) && (q.ordseq != ZERO ==> q.ordseq.started && !q.ordered.byTag)
    requires HeadInv(q.head, q.ordseq != ZERO, |q.ended|, q.epoch) && SchedInv(q.sched, q.epoch)
    requires DriverInv(q.driver, q.ordseq, |q.ended|) && DriverOk(q.driver)
    requires ProxySet(q.head, q.driver, Pending(q.ordseq))
    requires q.inFlight - Count(r) == Tally(q.driver, InFlight)
    requires q.ordseq != ZERO && q.ordseq.drain ==> NoneOf(q.head, |q.ended|) && NoneOf(q.driver, |q.ended|)
    requires q.ordseq != ZERO && (q.head == [] || ReqSeq(q.orig, q.head[0]) > DRAIN) ==>
             NoneOf(q.head, |q.ended|)
    ensures DrainInv(CompletedRequest(q, r))
  {
    var q1 := q.(inFlight := q.inFlight - Count(r));
    if q1.inFlight == 0 { NothingInFlight(q1.driver, |q1.ended|); }
    assert q1.inFlight != 0 ==> q1.driver != [];
    if q.ordseq != ZERO && !q.ordseq.drain { NoTurnYet(q.driver, q.ordseq, |q.ended|); }
    hide HeadInv, SchedInv, DriverInv, ProxySet, NoneOf, Tally, DriverOk;
    if CompletedRequest(q, r) != q1 {
      CompleteSeqKeepsDrain(q1, DRAIN_BIT, 0);
      hide CompleteSeq;
    }
  }

  lemma NoTurnYet(driver: seq<Request>, w: Word, cur: nat)
    requires DriverInv(driver, w, cur) && w.started && !w.drain
    ensures DriverInv(driver, w.Or(DRAIN_BIT), cur)
  {
  }

  lemma CompletePlainKeepsDrain(q: Queue, i: nat, error: int)
    requires Inv(q) && i < |q.driver| && !q.driver[i].IsProxy()
    ensures DrainInv(Complete(q, i, error))
  {
    ReturnPlain(q, i);
    OrigUnstarted(q);
    if q.ordseq != ZERO && (q.head == [] || ReqSeq(q.orig, q.head[0]) > DRAIN) { DrainedWhenIdle(q); }
    hide SeqInv, PlaceInv, HeadInv, SchedInv, DriverInv, ProxySet, NoneOf, Tally, RemoveAt, DriverOk;
    DrainCheckKeepsDrain(Returned(q, i, 0), q.driver[i]);
    hide CompletedRequest, DrainInv;
  }

  /** The driver has no other proxy than the one whose turn it is. */
  lemma OneTurn(q: Queue, i: nat)
    requires Inv(q) && i < |q.driver| && q.driver[i].IsProxy()
    ensures forall j :: 0 <= j < |q.driver| - 1 ==> !RemoveAt(q.driver, i)[j].IsProxy()
    ensures q.ordseq.started && q.ordseq.drain
  {
    var k := q.driver[i].kind;
    TallyRemove(q.driver, i);
    TallyNone(RemoveAt(q.driver, i), ByKind(k));
    var t := RemoveAt(q.driver, i);
    forall j | 0 <= j < |t|
      ensures !t[j].IsProxy()
    {
      assert t[j] == q.driver[if j < i then j else j + 1];
      assert !Passes(ByKind(k), t[j]);
    }
  }

  lemma NoProxyDriver(driver: seq<Request>, w: Word, w': Word, cur: nat)
    requires DriverInv(driver, w, cur) && forall j :: 0 <= j < |driver| ==> !driver[j].IsProxy()
    ensures DriverInv(driver, w', cur)
  {
  }

  /** The queue once a proxy is back, as its step's completion finds it. */
  ghost predicate ProxyBack(q: Queue, bit: Word) {
    && DrainMode(q.nextOrdered) && !q.ordered.byTag && q.ordseq.started && q.ordseq.drain
    && HeadInv(q.head, true, |q.ended|, q.epoch) && SchedInv(q.sched, q.epoch)
    && DriverInv(q.driver, q.ordseq.Or(bit), |q.ended|)
    && DrainState(q.ordseq.Or(bit), q.head, q.driver, q.orig, |q.ended|)
    && ProxySet(q.head, q.driver, Pending(q.ordseq.Or(bit)))
  }

  lemma ProxyComesBack(q: Queue, i: nat)
    requires Inv(q) && i < |q.driver| && q.driver[i].IsProxy()
    ensures ProxyBack(q.(driver := RemoveAt(q.driver, i)), StepBit(q.driver[i].kind))
  {
    var bit := StepBit(q.driver[i].kind);
    var cur := |q.ended|;
    OneTurn(q, i);
    hide SeqInv, PlaceInv, HeadInv, SchedInv, DriverInv, ProxySet, NoneOf, RemoveAt;
    RemoveKeepsDriver(q.driver, q.ordseq, cur, i);
    NoProxyDriver(RemoveAt(q.driver, i), q.ordseq, q.ordseq.Or(bit), cur);
    assert ProxySet(q.head, q.driver, Pending(q.ordseq)) by { ProxiesOfInv(q); }
    TakeBackKeepsProxies(q.head, q.driver, Pending(q.ordseq), i);
    RemoveKeepsNone(q.driver, i, cur);
  }

  lemma ProxiesOfInv(q: Queue)
    requires SeqInv(q)
    ensures ProxySet(q.head, q.driver, Pending(q.ordseq))
  {
  }

  /** What a proxy's return changes besides the driver does not matter here. */
  lemma ReturnedIsBack(q: Queue, i: nat, error: int, bit: Word)
    requires i < |q.driver| && q.driver[i].IsProxy() && ProxyBack(q.(driver := RemoveAt(q.driver, i)), bit)
    ensures ProxyBack(CompletedRequest(Returned(q, i, error), q.driver[i]), bit)
  {
    NotDraining(Returned(q, i, error), q.driver[i]);
    hide HeadInv, SchedInv, DriverInv, ProxySet, DrainState, RemoveAt;
  }

  lemma CompleteProxyKeepsDrain(q: Queue, i: nat, error: int)
    requires Inv(q) && i < |q.driver| && q.driver[i].IsProxy()
    ensures DrainInv(Complete(q, i, error))
  {
    hide Inv, DrainInv, HeadInv, SchedInv, DriverInv, ProxySet, DrainState, CompletedRequest, CompleteSeq, Returned;
    var bit := StepBit(q.driver[i].kind);
    ProxyComesBack(q, i);
    ReturnedIsBack(q, i, error, bit);
    CompleteSeqKeepsDrain(CompletedRequest(Returned(q, i, error), q.driver[i]), bit, error);
  }

  lemma NotDraining(q: Queue, r: Request)
    requires q.ordseq.started && q.ordseq.drain
    ensures CompletedRequest(q, r) == q.(inFlight := q.inFlight - Count(r))
  {
  }

  lemma CompleteKeepsDrain(q: Queue, i: nat, error: int)
    requires Inv(q) && i < |q.driver|
    ensures DrainInv(Complete(q, i, error))
  {
    hide Inv, DrainInv;
    if q.driver[i].IsProxy() {
      CompleteProxyKeepsDrain(q, i, error);
    } else {
      CompletePlainKeepsDrain(q, i, error);
    }
  }

  lemma MoreEpochs(head: seq<Request>, running: bool, cur: nat, epoch: nat, epoch': nat)
    requires HeadInv(head, running, cur, epoch) && epoch <= epoch'
    ensures HeadInv(head, running, cur, epoch')
  {
    forall i | 0 <= i < |head|
      ensures Entry(running, cur, epoch', head[i])
    {
      assert Entry(running, cur, epoch, head[i]);
    }
    hide Entry, InOrder;
  }

  lemma AppendKeepsDrain(q: Queue, c: Request)
    requires SeqInv(q) && DrainInv(q) && !c.IsProxy() && c.soft && (c.hard ==> c.kind.Fs?)
    requires c.epoch == q.epoch && c.color == q.ordcolor
    ensures HeadInv(q.head + [c], q.ordseq != ZERO, |q.ended|, if c.hard then q.epoch + 1 else q.epoch)
    ensures DrainState(q.ordseq, q.head + [c], q.driver, q.orig, |q.ended|)
  {
    var running := q.ordseq != ZERO;
    var cur := |q.ended|;
    EpochsBound(q);
    forall i | 0 <= i < |q.head|
      ensures InOrder(running, cur, q.head[i], c)
    {
      assert Entry(running, cur, q.epoch, q.head[i]);
      assert BarrierAt(q.head, i) ==> q.head[i].epoch < q.epoch;
    }
    assert Entry(running, cur, q.epoch, c);
    hide SeqInv, InOrder;
    InsertKeepsHeadInv(q.head, |q.head|, c, running, cur, q.epoch);
    assert InsertAt(q.head, |q.head|, c) == q.head + [c];
    hide HeadInv;
    MoreEpochs(q.head + [c], running, cur, q.epoch, if c.hard then q.epoch + 1 else q.epoch);
  }

  lemma PushKeepsDrain(q: Queue, c: Request)
    requires DrainInv(q) && c.kind.Special? && c.soft && !c.hard
    ensures HeadInv([c] + q.head, q.ordseq != ZERO, |q.ended|, q.epoch)
    ensures DrainState(q.ordseq, [c] + q.head, q.driver, q.orig, |q.ended|)
  {
    InsertKeepsHeadInv(q.head, 0, c, q.ordseq != ZERO, |q.ended|, q.epoch);
    assert InsertAt(q.head, 0, c) == [c] + q.head;
    hide HeadInv;
  }

  lemma AddKeepsDrain(q: Queue, r: Request, elvpriv: bool, where: Where, plan: seq<Move>)
    requires Inv(q) && Enabled(q, DoAdd(r, elvpriv, where, plan))
    ensures DrainInv(Add(q, r, elvpriv, where, plan))
  {
    hide Inv, DrainInv, Drains, DrainElevator;
    var c := r.(color := q.ordcolor);
    var q' := Add(q, r, elvpriv, where, plan);
    match InsertionPoint(r, elvpriv, where) {
      case Front => AddFrontKeepsDrain(q, q', c.(soft := true));
      case Back => AddBackKeepsDrain(q, q', c.(soft := true), plan);
      case Sort => AddSortKeepsDrain(q, q', c);
    }
  }

  lemma AddFrontKeepsDrain(q: Queue, q': Queue, c: Request)
    requires Inv(q) && c.kind.Special? && c.soft && !c.hard
    requires q' == q.(head := [c] + q.head, subs := q'.subs)
    ensures DrainInv(q')
  {
    PushKeepsDrain(q, c);
    hide HeadInv, SchedInv, DriverInv, DrainState, SeqInv, PlaceInv;
  }

  lemma AddSortKeepsDrain(q: Queue, q': Queue, c: Request)
    requires Inv(q) && c.epoch == q.epoch && c.color == q.ordcolor
    requires q' == q.(sched := q.sched + [c], subs := q'.subs)
    ensures DrainInv(q')
  {
    assert q.ordcolor == Odd(q.epoch);
    hide HeadInv, DriverInv, DrainState, SeqInv, PlaceInv;
  }

  lemma AddBackKeepsDrain(q: Queue, q': Queue, c: Request, plan: seq<Move>)
    requires Inv(q) && Drains(q, plan) && !c.IsProxy() && c.soft && (c.hard ==> c.kind.Fs?)
    requires c.epoch == q.epoch && c.color == q.ordcolor
    requires q' == q.(head := DrainElevator(q, plan).head + [c], sched := DrainElevator(q, plan).sched,
                      subs := q'.subs, ordcolor := q'.ordcolor,
                      epoch := if c.hard then q.epoch + 1 else q.epoch)
    ensures DrainInv(q')
  {
    hide SeqInv, PlaceInv, DrainInv, Drains;
    DrainKeeps(q, plan);
    DrainKeepsDrain(q, plan);
    var d := DrainElevator(q, plan);
    AppendKeepsDrain(d, c);
    DrainedAppend(q, q', d, c);
  }

  lemma DrainedAppend(q: Queue, q': Queue, d: Queue, c: Request)
    requires DrainInv(d) && d == q.(sched := [], head := d.head)
    requires HeadInv(d.head + [c], d.ordseq != ZERO, |d.ended|, if c.hard then d.epoch + 1 else d.epoch)
    requires DrainState(d.ordseq, d.head + [c], d.driver, d.orig, |d.ended|)
    requires q' == q.(head := d.head + [c], sched := d.sched, subs := q'.subs, ordcolor := q'.ordcolor,
                      epoch := if c.hard then q.epoch + 1 else q.epoch)
    ensures DrainInv(q')
  {
    hide HeadInv, DriverInv, DrainState;
  }

  // ----- Runs ------------------------------------------------------------------------

  /** A step of a queue that the driver keeps in a drain mode. */
  predicate DrainStep(q: Queue, st: Step) {
    Enabled(q, st) && (st.DoSetOrdered? ==> DrainMode(st.o))
  }

  lemma StepKeepsInv(q: Queue, st: Step)
    requires Inv(q) && DrainStep(q, st)
    ensures Inv(Next(q, st))
  {
    StepKeepsSeqInv(q, st);
    StepKeepsPlaceInv(q, st);
    match st
    case DoAdd(r, elvpriv, where, drain) => AddKeepsDrain(q, r, elvpriv, where, drain);
    case DoDispatch(m) => DispatchKeepsDrain(q, m);
    case DoPeek(plan) => PeekInv(q, plan);
    case DoFetch(plan) => FetchInv(q, plan);
    case DoRequeue(i) => RequeueKeepsDrain(q, i);
    case DoComplete(i, error) => CompleteKeepsDrain(q, i, error);
    case DoBarError(error) => hide HeadInv, SchedInv, DriverInv, DrainState, SeqInv, PlaceInv;
    case DoSetOrdered(o) => hide HeadInv, SchedInv, DriverInv, DrainState, SeqInv, PlaceInv;
  }

  predicate IsDrainRun(q: Queue, steps: seq<Step>)
    decreases steps
  {
    steps == [] || (DrainStep(q, steps[0]) && IsDrainRun(Next(q, steps[0]), steps[1..]))
  }

  lemma {:induction false} DrainRunsAreRuns(q: Queue, steps: seq<Step>)
    requires IsDrainRun(q, steps)
    ensures IsRun(q, steps)
    decreases steps
  {
    hide Enabled, Next;
    if steps != [] { DrainRunsAreRuns(Next(q, steps[0]), steps[1..]); }
  }
}
