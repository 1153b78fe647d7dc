/** What holds in every state of every run, whatever mode orders the queue: barriers are
    taken in the order of submission, each unfinished step of a running sequence has exactly
    one proxy, and a barrier is ended once, with the first error its proxies reported. */
module BarrierSequence {
  import opened Requests
  import opened BarrierModel
  import opened Tallies

  predicate Odd(n: nat) { n % 2 == 1 }

  function First(errors: seq<int>): int { if errors == [] then 0 else errors[0] }

  predicate QueuedBarrier(r: Request) { r.kind.Fs? && r.hard }

  /** A set of proxy kinds. */
  datatype Kinds = Kinds(pre: bool, bar: bool, post: bool)
  {
    predicate Has(k: Kind) {
      (k.PreFlush? && pre) || (k.BarProxy? && bar) || (k.PostFlush? && post)
    }

    function With(k: Kind): Kinds {
      Kinds(pre || k.PreFlush?, bar || k.BarProxy?, post || k.PostFlush?)
    }

    function Without(k: Kind): Kinds {
      Kinds(pre && !k.PreFlush?, bar && !k.BarProxy?, post && !k.PostFlush?)
    }
  }

  const NO_KINDS := Kinds(false, false, false)

  /** The proxies whose step is unfinished. */
  function Pending(w: Word): Kinds {
    if w == ZERO then NO_KINDS else Kinds(!w.preflush, !w.bar, !w.postflush)
  }

  // ----- Barriers in the dispatch queue ----------------------------------------------

  predicate BarrierAt(head: seq<Request>, i: int) {
    0 <= i < |head| && QueuedBarrier(head[i])
  }

  ghost predicate HasBarrier(head: seq<Request>, x: nat) {
    exists i :: BarrierAt(head, i) && head[i].epoch == x
  }

  predicate PlainBarrier(subs: seq<Sub>, r: Request) {
    && r.stamp < |subs| && subs[r.stamp] == Sub(r.epoch, true, true)
    && !r.started && r.color == Odd(r.epoch)
  }

  /** The barriers in `head` are those of epochs lo to hi - 1, each once, in that order. */
  ghost predicate BarrierQueue(head: seq<Request>, lo: nat, hi: nat) {
    && (forall i :: BarrierAt(head, i) ==> lo <= head[i].epoch < hi)
    && (forall i, j :: BarrierAt(head, i) && BarrierAt(head, j) && i < j ==>
          head[i].epoch < head[j].epoch)
    && (forall x: nat :: lo <= x < hi ==> HasBarrier(head, x))
  }

  lemma FindBarrier(head: seq<Request>, lo: nat, hi: nat, x: nat) returns (i: nat)
    requires BarrierQueue(head, lo, hi) && lo <= x < hi
    ensures BarrierAt(head, i) && head[i].epoch == x
  {
    assert HasBarrier(head, x);
    i :| BarrierAt(head, i) && head[i].epoch == x;
  }

  lemma InsertAtIndices(s: seq<Request>, at: nat, r: Request)
    requires at <= |s|
    ensures |InsertAt(s, at, r)| == |s| + 1 && InsertAt(s, at, r)[at] == r
    ensures forall i :: 0 <= i < at ==> InsertAt(s, at, r)[i] == s[i]
    ensures forall i :: at < i <= |s| ==> InsertAt(s, at, r)[i] == s[i - 1]
  {
  }

  lemma InsertKeepsBarriers(head: seq<Request>, at: nat, r: Request, lo: nat, hi: nat)
    requires at <= |head| && !QueuedBarrier(r) && BarrierQueue(head, lo, hi)
    ensures BarrierQueue(InsertAt(head, at, r), lo, hi)
  {
    var t := InsertAt(head, at, r);
    InsertAtIndices(head, at, r);
    forall i | BarrierAt(t, i)
      ensures BarrierAt(head, if i < at then i else i - 1)
    {
    }
    forall x: nat | lo <= x < hi
      ensures HasBarrier(t, x)
    {
      assert HasBarrier(head, x);
      var i :| BarrierAt(head, i) && head[i].epoch == x;
      assert BarrierAt(t, if i < at then i else i + 1);
    }
  }

  lemma AppendBarrier(head: seq<Request>, r: Request, lo: nat, hi: nat)
    requires QueuedBarrier(r) && r.epoch == hi && lo <= hi && BarrierQueue(head, lo, hi)
    ensures BarrierQueue(head + [r], lo, hi + 1)
  {
    var t := head + [r];
    forall i | BarrierAt(t, i)
      ensures i == |head| || BarrierAt(head, i)
    {
    }
    forall x: nat | lo <= x < hi + 1
      ensures HasBarrier(t, x)
    {
      if x == hi {
        assert BarrierAt(t, |head|);
      } else {
        assert HasBarrier(head, x);
        var i :| BarrierAt(head, i) && head[i].epoch == x;
        assert BarrierAt(t, i);
      }
    }
  }

  /** A barrier at the head of the queue is the oldest one. */
  lemma HeadIsOldest(head: seq<Request>, lo: nat, hi: nat)
    requires BarrierQueue(head, lo, hi) && BarrierAt(head, 0)
    ensures head[0].epoch == lo < hi
  {
    assert lo < hi ==> HasBarrier(head, lo);
  }

  lemma PopKeepsBarriers(head: seq<Request>, lo: nat, hi: nat)
    requires BarrierQueue(head, lo, hi) && head != []
    ensures BarrierQueue(head[1..], if BarrierAt(head, 0) then lo + 1 else lo, hi)
  {
    var t := head[1..];
    var lo' := if BarrierAt(head, 0) then lo + 1 else lo;
    if BarrierAt(head, 0) { HeadIsOldest(head, lo, hi); }
    forall i | BarrierAt(t, i)
      ensures BarrierAt(head, i + 1)
    {
    }
    forall x: nat | lo' <= x < hi
      ensures HasBarrier(t, x)
    {
      assert HasBarrier(head, x);
      var i :| BarrierAt(head, i) && head[i].epoch == x;
      assert BarrierAt(t, i - 1);
    }
  }

  lemma PrependKeepsBarriers(s: seq<Request>, head: seq<Request>, lo: nat, hi: nat)
    requires BarrierQueue(head, lo, hi) && forall r :: r in s ==> !QueuedBarrier(r)
    ensures BarrierQueue(s + head, lo, hi)
  {
    if s == [] {
      assert s + head == head;
    } else {
      PrependKeepsBarriers(s[1..], head, lo, hi);
      InsertKeepsBarriers(s[1..] + head, 0, s[0], lo, hi);
      assert InsertAt(s[1..] + head, 0, s[0]) == s + head;
    }
  }

  // ----- Proxies in the dispatch queue and at the driver -----------------------------

  /** The proxies queued or at the driver are those of the kinds `p`, each once. */
  ghost predicate ProxySet(head: seq<Request>, driver: seq<Request>, p: Kinds) {
    forall k: Kind :: k.PreFlush? || k.BarProxy? || k.PostFlush? ==>
      Tally(head, ByKind(k)) + Tally(driver, ByKind(k)) == if p.Has(k) then 1 else 0
  }

  lemma InsertKeepsProxies(head: seq<Request>, driver: seq<Request>, p: Kinds, at: nat, r: Request)
    requires at <= |head| && ProxySet(head, driver, p)
    requires r.IsProxy() ==> !p.Has(r.kind)
    ensures ProxySet(InsertAt(head, at, r), driver, p.With(r.kind))
  {
    TallyInsert(head, at, r);
  }

  /** Taking a request off the head of the queue. */
  lemma PopKeepsProxies(head: seq<Request>, driver: seq<Request>, p: Kinds)
    requires head != [] && ProxySet(head, driver, p)
    ensures ProxySet(head[1..], driver, p.Without(head[0].kind))
    ensures head[0].IsProxy() ==> p.Has(head[0].kind)
  {
  }

  lemma GiveKeepsProxies(head: seq<Request>, driver: seq<Request>, p: Kinds, r: Request)
    requires ProxySet(head, driver, p)
    requires r.IsProxy() ==> !p.Has(r.kind)
    ensures ProxySet(head, driver + [r], p.With(r.kind))
  {
    TallyAppend(driver, r);
  }

  lemma TakeBackKeepsProxies(head: seq<Request>, driver: seq<Request>, p: Kinds, i: nat)
    requires i < |driver| && ProxySet(head, driver, p)
    ensures ProxySet(head, RemoveAt(driver, i), p.Without(driver[i].kind))
    ensures driver[i].IsProxy() ==> p.Has(driver[i].kind)
  {
    TallyRemove(driver, i);
  }

  // ----- The invariant ---------------------------------------------------------------

  /** Epochs grow with the stamp, strictly past a barrier. */
  ghost predicate Registered(subs: seq<Sub>, epoch: nat) {
    && (forall i, j :: 0 <= i < j < |subs| ==>
          subs[i].epoch <= subs[j].epoch && (subs[i].barrier ==> subs[i].epoch < subs[j].epoch))
    && (forall i :: 0 <= i < |subs| ==>
          subs[i].epoch <= epoch && (subs[i].barrier ==> subs[i].epoch < epoch && subs[i].fs))
  }

  /** The k-th barrier to be ended is the k-th submitted; its error is the first one its
      proxies reported, or says that the queue cannot order requests. */
  ghost predicate EndedInOrder(ended: seq<Ended>, subs: seq<Sub>) {
    forall k :: 0 <= k < |ended| ==>
      && ended[k].bar.epoch == k && PlainBarrier(subs, ended[k].bar)
      && ended[k].error == if ended[k].ordered then First(ended[k].reported) else EOPNOTSUPP
  }

  ghost predicate SequenceOk(w: Word, orig: Request, orderr: int, reported: seq<int>,
                             subs: seq<Sub>, current: nat) {
    w != ZERO ==>
      && w.started && QueuedBarrier(orig) && orig.epoch == current
      && PlainBarrier(subs, orig) && orderr == First(reported) && 0 !in reported
  }

  ghost predicate HeadBarriersOk(head: seq<Request>, subs: seq<Sub>) {
    forall i :: BarrierAt(head, i) ==> PlainBarrier(subs, head[i])
  }

  ghost predicate SchedOk(sched: seq<Request>) {
    forall i :: 0 <= i < |sched| ==> sched[i].kind.Fs? && !sched[i].hard && !sched[i].started
  }

  ghost predicate DriverOk(driver: seq<Request>) {
    forall i :: 0 <= i < |driver| ==> !QueuedBarrier(driver[i]) && driver[i].started
  }

  /** The epoch of the oldest barrier that no sequence was started for. */
  function Oldest(q: Queue): nat { |q.ended| + (if q.ordseq == ZERO then 0 else 1) }

  ghost predicate SeqCore(q: Queue, p: Kinds) {
    && SequenceOk(q.ordseq, q.orig, q.orderr, q.reported, q.subs, |q.ended|)
    && ProxySet(q.head, q.driver, p)
    && BarrierQueue(q.head, Oldest(q), q.epoch)
    && HeadBarriersOk(q.head, q.subs) && SchedOk(q.sched) && DriverOk(q.driver)
    && Registered(q.subs, q.epoch) && q.ordcolor == Odd(q.epoch)
    && EndedInOrder(q.ended, q.subs)
  }

  /** A sequence runs exactly as long as a step of it is unfinished. */
  predicate Unfinished(w: Word) {
    w == ZERO || !w.drain || Pending(w) != NO_KINDS
  }

  ghost predicate SeqInv(q: Queue) {
    SeqCore(q, Pending(q.ordseq)) && Unfinished(q.ordseq)
  }

  lemma InitialSeqInv(q: Queue)
    requires Initial(q)
    ensures SeqInv(q)
  {
  }

  // ----- Every operation keeps it ----------------------------------------------------

  lemma CompleteSeqKeeps(q: Queue, seqs: Word, error: int, p: Kinds)
    requires SeqCore(q, p) && q.ordseq != ZERO
    requires p == Pending(q.ordseq.Or(seqs))
    ensures SeqInv(CompleteSeq(q, seqs, error))
    ensures CompleteSeq(q, seqs, error).ordseq == ZERO <==>
            q.ordseq.Or(seqs) == Word(true, true, true, true, true)
  {
    hide SeqInv, SeqCore, CompleteSeq, Pending;
    if q.ordseq.Or(seqs) == Word(true, true, true, true, true) {
      LastStepKeeps(q, seqs, error, p);
    } else {
      EarlierStepKeeps(q, seqs, error, p);
    }
  }

  /** The last step ends the barrier. */
  lemma LastStepKeeps(q: Queue, seqs: Word, error: int, p: Kinds)
    requires SeqCore(q, p) && q.ordseq != ZERO && p == Pending(q.ordseq.Or(seqs))
    requires q.ordseq.Or(seqs) == Word(true, true, true, true, true)
    ensures SeqInv(CompleteSeq(q, seqs, error)) && CompleteSeq(q, seqs, error).ordseq == ZERO
  {
    hide ProxySet, BarrierQueue, Registered, HeadBarriersOk, SchedOk, DriverOk, PlainBarrier;
  }

  lemma EarlierStepKeeps(q: Queue, seqs: Word, error: int, p: Kinds)
    requires SeqCore(q, p) && q.ordseq != ZERO && p == Pending(q.ordseq.Or(seqs))
    requires q.ordseq.Or(seqs) != Word(true, true, true, true, true)
    ensures SeqInv(CompleteSeq(q, seqs, error)) && CompleteSeq(q, seqs, error).ordseq != ZERO
  {
    hide ProxySet, BarrierQueue, Registered, HeadBarriersOk, SchedOk, DriverOk, PlainBarrier, EndedInOrder;
  }

  lemma StartOrderedKeeps(q: Queue)
    requires SeqInv(q) && q.ordseq == ZERO && BarrierAt(q.head, 0)
    ensures SeqInv(StartOrdered(q).q)
    ensures StartOrdered(q).keep && StartOrdered(q).rq.Some? ==>
            StartOrdered(q).q.head != [] && StartOrdered(q).rq == Some(StartOrdered(q).q.head[0])
    ensures StartOrdered(q).rq.Some? ==> StartOrdered(q).rq.value.IsProxy()
  {
    hide ProxySet, BarrierQueue, Registered, HeadBarriersOk, SchedOk, DriverOk, EndedInOrder;
    var bar := q.head[0];
    var m := SequenceMode(q.nextOrdered, bar.sectors);
    var proxies := Proxies(bar, m);
    var rest := q.head[1..];
    StartHead(q.head, |q.ended|, q.epoch, q.subs, m);
    PopKeepsProxies(q.head, q.driver, NO_KINDS);
    StartProxies(bar, m, rest, q.driver);
    var q1 := Begun(q);
    CompleteSeqKeeps(q1, Skipped(m, q1.inFlight), 0, KindsOf(m));
  }

  lemma StartHead(head: seq<Request>, lo: nat, hi: nat, subs: seq<Sub>, m: Ordered)
    requires BarrierQueue(head, lo, hi) && BarrierAt(head, 0) && HeadBarriersOk(head, subs)
    ensures PlainBarrier(subs, head[0]) && head[0].epoch == lo
    ensures BarrierQueue(Proxies(head[0], m) + head[1..], lo + 1, hi)
    ensures HeadBarriersOk(Proxies(head[0], m) + head[1..], subs)
  {
    HeadIsOldest(head, lo, hi);
    PopKeepsBarriers(head, lo, hi);
    var proxies := Proxies(head[0], m);
    var h := proxies + head[1..];
    PrependKeepsBarriers(proxies, head[1..], lo + 1, hi);
    forall i | BarrierAt(h, i)
      ensures PlainBarrier(subs, h[i])
    {
      assert BarrierAt(head, i - |proxies| + 1);
    }
  }

  function KindsOf(m: Ordered): Kinds { Kinds(m.preflush, m.bar, m.postflush) }

  lemma StartProxies(bar: Request, m: Ordered, rest: seq<Request>, driver: seq<Request>)
    requires ProxySet(rest, driver, NO_KINDS)
    ensures ProxySet(Proxies(bar, m) + rest, driver, KindsOf(m))
  {
    hide ProxySet;
    var post := ProxyIf(m.postflush, bar, PostFlush);
    var mid := ProxyIf(m.bar, bar, BarProxy);
    var pre := ProxyIf(m.preflush, bar, PreFlush);
    var p0 := NO_KINDS;
    var p1 := p0.(post := m.postflush);
    var p2 := p1.(bar := m.bar);
    PushProxy(post, rest, driver, p0);
    PushProxy(mid, post + rest, driver, p1);
    PushProxy(pre, mid + (post + rest), driver, p2);
    Regroup(pre, mid, post, rest);
  }

  lemma Regroup(a: seq<Request>, b: seq<Request>, c: seq<Request>, d: seq<Request>)
    ensures a + b + c + d == a + (b + (c + d))
  {
  }

  lemma PushProxy(s: seq<Request>, head: seq<Request>, driver: seq<Request>, p: Kinds)
    requires ProxySet(head, driver, p)
    requires |s| <= 1 && (s != [] ==> s[0].IsProxy() && !p.Has(s[0].kind))
    ensures ProxySet(s + head, driver, if s == [] then p else p.With(s[0].kind))
  {
    if s == [] {
      assert s + head == head;
    } else {
      InsertKeepsProxies(head, driver, p, 0, s[0]);
      assert InsertAt(head, 0, s[0]) == s + head;
    }
  }

  lemma InsertKeepsHead(head: seq<Request>, at: nat, r: Request, lo: nat, hi: nat, subs: seq<Sub>)
    requires at <= |head| && !QueuedBarrier(r) && BarrierQueue(head, lo, hi) && HeadBarriersOk(head, subs)
    ensures BarrierQueue(InsertAt(head, at, r), lo, hi) && HeadBarriersOk(InsertAt(head, at, r), subs)
  {
    InsertKeepsBarriers(head, at, r, lo, hi);
    InsertAtIndices(head, at, r);
    var t := InsertAt(head, at, r);
    forall i | BarrierAt(t, i)
      ensures PlainBarrier(subs, t[i])
    {
      assert BarrierAt(head, if i < at then i else i - 1);
    }
  }

  lemma PopKeepsHead(head: seq<Request>, lo: nat, hi: nat, subs: seq<Sub>)
    requires head != [] && BarrierQueue(head, lo, hi) && HeadBarriersOk(head, subs)
    ensures BarrierQueue(head[1..], if BarrierAt(head, 0) then lo + 1 else lo, hi)
    ensures HeadBarriersOk(head[1..], subs)
  {
    PopKeepsBarriers(head, lo, hi);
    forall i | BarrierAt(head[1..], i)
      ensures PlainBarrier(subs, head[1..][i])
    {
      assert BarrierAt(head, i + 1);
    }
  }

  lemma DispatchKeeps(q: Queue, m: Move)
    requires SeqInv(q) && CanDispatch(q, m)
    ensures SeqInv(Dispatch(q, m))
  {
    InsertKeepsHead(q.head, m.at, q.sched[m.from], Oldest(q), q.epoch, q.subs);
    InsertKeepsProxies(q.head, q.driver, Pending(q.ordseq), m.at, q.sched[m.from]);
    hide ProxySet, BarrierQueue, Registered, HeadBarriersOk, DriverOk, EndedInOrder, SequenceOk;
  }

  lemma DrainKeeps(q: Queue, plan: seq<Move>)
    requires SeqInv(q) && Drains(q, plan)
    ensures SeqInv(DrainElevator(q, plan))
    ensures DrainElevator(q, plan) ==
            q.(sched := [], head := DrainElevator(q, plan).head)
    decreases plan
  {
    hide SeqInv;
    if plan != [] {
      DispatchKeeps(q, plan[0]);
      DrainKeeps(Dispatch(q, plan[0]), plan[1..]);
    }
  }

  /** A second barrier is never let past while a sequence runs: its colour differs. */
  lemma NextBarrierWaits(q: Queue)
    requires SeqInv(q) && q.ordseq != ZERO && BarrierAt(q.head, 0)
    ensures q.head[0].color != q.orig.color
    ensures ReqSeq(q.orig, q.head[0]) > CurSeq(q.ordseq)
  {
    HeadIsOldest(q.head, Oldest(q), q.epoch);
    hide ProxySet, BarrierQueue, Registered, EndedInOrder;
  }

  lemma DoOrderedKeeps(q: Queue)
    requires SeqInv(q) && q.head != []
    ensures SeqInv(DoOrdered(q).q)
    ensures DoOrdered(q).keep && DoOrdered(q).rq.Some? ==>
              && DoOrdered(q).q.head != [] && DoOrdered(q).rq == Some(DoOrdered(q).q.head[0])
              && !QueuedBarrier(DoOrdered(q).q.head[0])
  {
    if q.ordseq != ZERO {
      if BarrierAt(q.head, 0) { NextBarrierWaits(q); }
      hide SeqInv;
    } else {
      NoProxyAtHead(q);
      if BarrierAt(q.head, 0) {
        if q.nextOrdered != ORDERED_NONE {
          StartOrderedKeeps(q);
          hide SeqInv, StartOrdered;
        } else {
          RefuseKeeps(q);
          hide SeqInv;
        }
      } else {
        hide SeqInv;
      }
    }
  }

  lemma NoProxyAtHead(q: Queue)
    requires SeqInv(q) && q.ordseq == ZERO && q.head != []
    ensures !q.head[0].IsProxy()
  {
    hide BarrierQueue, Registered, EndedInOrder, HeadBarriersOk, SchedOk, DriverOk, SequenceOk;
  }

  /** A queue that cannot order requests ends a barrier at once. */
  lemma RefuseKeeps(q: Queue)
    requires SeqInv(q) && q.ordseq == ZERO && BarrierAt(q.head, 0) && q.nextOrdered == ORDERED_NONE
    ensures SeqInv(DoOrdered(q).q)
  {
    HeadIsOldest(q.head, Oldest(q), q.epoch);
    PopKeepsHead(q.head, Oldest(q), q.epoch, q.subs);
    PopKeepsProxies(q.head, q.driver, Pending(q.ordseq));
    assert PlainBarrier(q.subs, q.head[0]);
    hide ProxySet, BarrierQueue, Registered, HeadBarriersOk, SchedOk, DriverOk, PlainBarrier;
  }

  lemma NextRequestKeeps(q: Queue, plan: seq<nat>)
    requires SeqInv(q)
    ensures SeqInv(NextRequest(q, plan).q)
    ensures NextRequest(q, plan).rq.Some? ==>
              && NextRequest(q, plan).q.head != []
              && NextRequest(q, plan).rq == Some(NextRequest(q, plan).q.head[0])
              && !QueuedBarrier(NextRequest(q, plan).q.head[0])
    decreases |plan|, |q.head|
  {
    hide SeqInv, DoOrdered;
    if q.head != [] {
      DoOrderedKeeps(q);
      if !DoOrdered(q).keep {
        DoOrderedShrinks(q);
        NextRequestKeeps(DoOrdered(q).q, plan);
      }
    } else if plan != [] && plan[0] < |q.sched| {
      DispatchKeeps(q, Move(plan[0], 0));
      NextRequestKeeps(Dispatch(q, Move(plan[0], 0)), plan[1..]);
    }
  }

  /** Marking the request at the head as started. */
  lemma StartKeeps(q: Queue)
    requires SeqInv(q) && q.head != [] && !QueuedBarrier(q.head[0])
    ensures SeqInv(q.(head := [q.head[0].(started := true)] + q.head[1..]))
  {
    var rq := q.head[0].(started := true);
    var rest := q.head[1..];
    var p := Pending(q.ordseq);
    PopKeepsHead(q.head, Oldest(q), q.epoch, q.subs);
    PopKeepsProxies(q.head, q.driver, p);
    InsertKeepsHead(rest, 0, rq, Oldest(q), q.epoch, q.subs);
    InsertKeepsProxies(rest, q.driver, p.Without(rq.kind), 0, rq);
    assert InsertAt(rest, 0, rq) == [rq] + rest;
    hide ProxySet, BarrierQueue, Registered, HeadBarriersOk, SchedOk, DriverOk, EndedInOrder, SequenceOk;
  }

  lemma PeekKeeps(q: Queue, plan: seq<nat>)
    requires SeqInv(q)
    ensures SeqInv(Peek(q, plan).q)
    ensures Peek(q, plan).rq.Some? ==>
              && Peek(q, plan).q.head != [] && Peek(q, plan).rq == Some(Peek(q, plan).q.head[0])
              && !QueuedBarrier(Peek(q, plan).q.head[0]) && Peek(q, plan).q.head[0].started
  {
    hide SeqInv, NextRequest;
    NextRequestKeeps(q, plan);
    if NextRequest(q, plan).rq.Some? { StartKeeps(NextRequest(q, plan).q); }
  }

  /** Handing the started request at the head to the driver. */
  lemma HandOverKeeps(q: Queue)
    requires SeqInv(q) && q.head != [] && !QueuedBarrier(q.head[0]) && q.head[0].started
    ensures SeqInv(q.(head := q.head[1..], driver := q.driver + [q.head[0]],
                      inFlight := q.inFlight + Count(q.head[0])))
  {
    var rq := q.head[0];
    var p := Pending(q.ordseq);
    PopKeepsHead(q.head, Oldest(q), q.epoch, q.subs);
    PopKeepsProxies(q.head, q.driver, p);
    GiveKeepsProxies(q.head[1..], q.driver, p.Without(rq.kind), rq);
    hide ProxySet, BarrierQueue, Registered, HeadBarriersOk, SchedOk, EndedInOrder, SequenceOk;
  }

  lemma FetchKeeps(q: Queue, plan: seq<nat>)
    requires SeqInv(q)
    ensures SeqInv(Fetch(q, plan).q)
  {
    hide SeqInv, Peek;
    PeekKeeps(q, plan);
    if Peek(q, plan).rq.Some? { HandOverKeeps(Peek(q, plan).q); }
  }

  lemma RequeueKeeps(q: Queue, i: nat)
    requires SeqInv(q) && i < |q.driver|
    ensures SeqInv(Requeue(q, i))
  {
    var r := q.driver[i];
    var p := Pending(q.ordseq);
    var r' := r.(started := false, soft := true);
    var at := if q.ordseq == ZERO then 0 else RequeueIndex(q.orig, q.head, ReqSeq(q.orig, r));
    TakeBackKeepsProxies(q.head, q.driver, p, i);
    InsertKeepsProxies(q.head, RemoveAt(q.driver, i), p.Without(r.kind), at, r');
    InsertKeepsHead(q.head, at, r', Oldest(q), q.epoch, q.subs);
    hide ProxySet, BarrierQueue, Registered, HeadBarriersOk, SchedOk, EndedInOrder, SequenceOk, RequeueIndex;
  }

  /** The proxy invariant does not depend on counters, nor on which bits are set. */
  lemma CoreFrame(q: Queue, q': Queue, p: Kinds)
    requires SeqCore(q, p)
    requires q' == q.(inFlight := q'.inFlight, done := q'.done, ordseq := q'.ordseq)
    requires q'.ordseq == q.ordseq || (q.ordseq != ZERO && q'.ordseq.started)
    ensures SeqCore(q', p)
  {
    hide ProxySet, BarrierQueue, Registered, HeadBarriersOk, SchedOk, DriverOk, EndedInOrder, PlainBarrier;
  }

  lemma CompletedRequestKeeps(q: Queue, r: Request)
    requires SeqInv(q)
    ensures SeqInv(CompletedRequest(q, r))
  {
    var q1 := q.(inFlight := q.inFlight - Count(r));
    CoreFrame(q, q1, Pending(q.ordseq));
    hide SeqCore;
    if q.ordseq != ZERO && CurSeq(q.ordseq) == DRAIN {
      CompleteSeqKeeps(q1, DRAIN_BIT, 0, Pending(q.ordseq));
      hide CompleteSeq;
    }
  }

  /** The drain check leaves a sequence running that has another step to complete. */
  lemma DrainCheckOnly(q: Queue, r: Request)
    requires q.ordseq.started && Pending(q.ordseq) != NO_KINDS
    ensures var q' := CompletedRequest(q, r);
              && q' == q.(inFlight := q'.inFlight, ordseq := q'.ordseq)
              && q'.ordseq == q.ordseq.(drain := q'.ordseq.drain)
  {
  }

  lemma RecordErrorKeeps(q: Queue, error: int, p: Kinds)
    requires SeqCore(q, p)
    ensures SeqCore(RecordError(q, error), p) && RecordError(q, error).ordseq == q.ordseq
  {
    hide ProxySet, BarrierQueue, Registered, HeadBarriersOk, SchedOk, DriverOk, EndedInOrder, PlainBarrier;
  }

  /** Completing the step of a proxy that the driver no longer has. */
  lemma CompleteProxyKeeps(q: Queue, r: Request, bit: Word, error: int, p: Kinds)
    requires SeqCore(q, p) && q.ordseq.started && Pending(q.ordseq) != NO_KINDS
    requires p == Pending(q.ordseq.Or(bit))
    ensures SeqInv(CompleteSeq(CompletedRequest(q, r), bit, error))
  {
    DrainCheckOnly(q, r);
    var q' := CompletedRequest(q, r);
    CoreFrame(q, q', p);
    hide SeqCore, CompletedRequest;
    CompleteSeqKeeps(q', bit, error, p);
  }

  lemma TakeBackKeeps(q: Queue, i: nat)
    requires SeqInv(q) && i < |q.driver|
    ensures SeqCore(q.(driver := RemoveAt(q.driver, i)), Pending(q.ordseq).Without(q.driver[i].kind))
    ensures q.driver[i].IsProxy() ==> q.ordseq.started && Pending(q.ordseq).Has(q.driver[i].kind)
  {
    TakeBackKeepsProxies(q.head, q.driver, Pending(q.ordseq), i);
    hide ProxySet, BarrierQueue, Registered, HeadBarriersOk, SchedOk, EndedInOrder, PlainBarrier;
  }

  /** No step is completed twice: the checks of the completion routine never fail. */
  lemma ReturnedSteps(q: Queue, i: nat, error: int)
    requires SeqInv(q) && i < |q.driver|
    ensures var q1 := Returned(q, i, error);
            var q2 := CompletedRequest(q1, q.driver[i]);
      && (q1.ordseq != ZERO ==> q1.ordseq.started)
      && (q.driver[i].IsProxy() ==> q2.ordseq.started && !q2.ordseq.Meets(StepBit(q.driver[i].kind)))
  {
    TakeBackKeeps(q, i);
    SequenceStarted(q);
    hide SeqInv, SeqCore, RemoveAt;
    if q.driver[i].IsProxy() {
      DrainCheckOnly(Returned(q, i, error), q.driver[i]);
      hide CompletedRequest;
    }
  }

  lemma CompleteKeeps(q: Queue, i: nat, error: int)
    requires SeqInv(q) && i < |q.driver|
    ensures SeqInv(Complete(q, i, error))
  {
    hide SeqCore, CompletedRequest, CompleteSeq, RecordError, RemoveAt;
    var r := q.driver[i];
    var q1 := q.(driver := RemoveAt(q.driver, i));
    var p := Pending(q.ordseq).Without(r.kind);
    TakeBackKeeps(q, i);
    if r.kind.BarProxy? {
      RecordErrorKeeps(q1, error, p);
      CompleteProxyKeeps(RecordError(q1, error), r, BAR_BIT, error, p);
    } else if r.IsProxy() {
      CompleteProxyKeeps(q1, r, StepBit(r.kind), error, p);
    } else {
      CoreFrame(q1, q1.(done := q1.done + {r.stamp}), p);
      CompletedRequestKeeps(q1.(done := q1.done + {r.stamp}), r);
    }
  }

  lemma AddToRegister(subs: seq<Sub>, epoch: nat, sub: Sub)
    requires Registered(subs, epoch) && sub.epoch == epoch && (sub.barrier ==> sub.fs)
    ensures Registered(subs + [sub], if sub.barrier then epoch + 1 else epoch)
  {
  }

  lemma LongerRegister(q: Queue, subs: seq<Sub>)
    requires q.subs <= subs
    requires SequenceOk(q.ordseq, q.orig, q.orderr, q.reported, q.subs, |q.ended|)
    requires HeadBarriersOk(q.head, q.subs) && EndedInOrder(q.ended, q.subs)
    ensures SequenceOk(q.ordseq, q.orig, q.orderr, q.reported, subs, |q.ended|)
    ensures HeadBarriersOk(q.head, subs) && EndedInOrder(q.ended, subs)
  {
  }

  lemma AppendKeepsHead(head: seq<Request>, r: Request, lo: nat, hi: nat, subs: seq<Sub>)
    requires BarrierQueue(head, lo, hi) && HeadBarriersOk(head, subs) && lo <= hi
    requires QueuedBarrier(r) ==> r.epoch == hi && PlainBarrier(subs, r)
    ensures BarrierQueue(head + [r], lo, if QueuedBarrier(r) then hi + 1 else hi)
    ensures HeadBarriersOk(head + [r], subs)
  {
    if QueuedBarrier(r) {
      AppendBarrier(head, r, lo, hi);
    } else {
      InsertKeepsBarriers(head, |head|, r, lo, hi);
      assert InsertAt(head, |head|, r) == head + [r];
    }
    forall i | BarrierAt(head + [r], i)
      ensures PlainBarrier(subs, (head + [r])[i])
    {
      assert i == |head| || BarrierAt(head, i);
    }
  }

  lemma EpochsBound(q: Queue)
    requires SeqInv(q)
    ensures Oldest(q) <= q.epoch
  {
    if 0 < |q.ended| {
      assert PlainBarrier(q.subs, q.ended[|q.ended| - 1].bar);
    }
    hide ProxySet, BarrierQueue, HeadBarriersOk, SchedOk, DriverOk;
  }

  lemma AddRegisters(q: Queue, sub: Sub)
    requires SeqInv(q) && sub.epoch == q.epoch && (sub.barrier ==> sub.fs)
    ensures Oldest(q) <= q.epoch && Registered(q.subs + [sub], if sub.barrier then q.epoch + 1 else q.epoch)
  {
    hide Registered;
    EpochsBound(q);
    AddToRegister(q.subs, q.epoch, sub);
  }

  lemma AddKeeps(q: Queue, r: Request, elvpriv: bool, where: Where, plan: seq<Move>)
    requires SeqInv(q) && Enabled(q, DoAdd(r, elvpriv, where, plan))
    ensures SeqInv(Add(q, r, elvpriv, where, plan))
  {
    hide SeqInv, Registered, Drains, DrainElevator;
    var sub := Sub(r.epoch, r.hard, r.kind.Fs?);
    var subs := q.subs + [sub];
    var c := r.(color := q.ordcolor);
    AddRegisters(q, sub);
    match InsertionPoint(r, elvpriv, where) {
      case Front => AddFrontKeeps(q, c, subs);
      case Back => AddDrainedKeeps(q, c, subs, plan);
      case Sort => AddSortKeeps(q, c, subs);
    }
  }

  lemma AddDrainedKeeps(q: Queue, c: Request, subs: seq<Sub>, plan: seq<Move>)
    requires SeqInv(q) && Drains(q, plan) && !c.IsProxy() && !c.started && (c.hard ==> c.kind.Fs?)
    requires c.stamp == |q.subs| && c.epoch == q.epoch && c.color == q.ordcolor
    requires subs == q.subs + [Sub(c.epoch, c.hard, c.kind.Fs?)]
    requires Registered(subs, if c.hard then q.epoch + 1 else q.epoch)
    ensures SeqInv(AddBack(q, q, c, plan).(
                     subs := subs, ordcolor := if c.hard then !q.ordcolor else q.ordcolor,
                     epoch := if c.hard then q.epoch + 1 else q.epoch))
  {
    hide SeqInv, Registered, Drains;
    DrainKeeps(q, plan);
    AddBackKeeps(DrainElevator(q, plan), c, subs);
  }

  lemma AddSortKeeps(q: Queue, c: Request, subs: seq<Sub>)
    requires SeqInv(q) && c.kind.Fs? && !c.hard && !c.started
    requires q.subs <= subs && Registered(subs, q.epoch)
    ensures SeqInv(q.(sched := q.sched + [c], subs := subs))
  {
    LongerRegister(q, subs);
    hide ProxySet, BarrierQueue, Registered, HeadBarriersOk, DriverOk, EndedInOrder, SequenceOk;
  }

  lemma AddFrontKeeps(q: Queue, c: Request, subs: seq<Sub>)
    requires SeqInv(q) && c.kind.Special? && !c.hard
    requires q.subs <= subs && Registered(subs, q.epoch)
    ensures SeqInv(q.(head := [c.(soft := true)] + q.head, subs := subs))
  {
    var c' := c.(soft := true);
    LongerRegister(q, subs);
    InsertKeepsHead(q.head, 0, c', Oldest(q), q.epoch, subs);
    InsertKeepsProxies(q.head, q.driver, Pending(q.ordseq), 0, c');
    assert InsertAt(q.head, 0, c') == [c'] + q.head;
    hide ProxySet, BarrierQueue, Registered, HeadBarriersOk, DriverOk, EndedInOrder, SequenceOk;
  }

  lemma AddBackKeeps(q: Queue, c: Request, subs: seq<Sub>)
    requires SeqInv(q) && !c.IsProxy() && !c.started && (c.hard ==> c.kind.Fs?)
    requires c.stamp == |q.subs| && c.epoch == q.epoch && c.color == q.ordcolor
    requires subs == q.subs + [Sub(c.epoch, c.hard, c.kind.Fs?)]
    requires Registered(subs, if c.hard then q.epoch + 1 else q.epoch)
    ensures SeqInv(q.(head := q.head + [c.(soft := true)], subs := subs,
                      ordcolor := if c.hard then !q.ordcolor else q.ordcolor,
                      epoch := if c.hard then q.epoch + 1 else q.epoch))
  {
    var c' := c.(soft := true);
    EpochsBound(q);
    LongerRegister(q, subs);
    AppendKeepsHead(q.head, c', Oldest(q), q.epoch, subs);
    InsertKeepsProxies(q.head, q.driver, Pending(q.ordseq), |q.head|, c');
    assert InsertAt(q.head, |q.head|, c') == q.head + [c'];
    hide ProxySet, BarrierQueue, Registered, HeadBarriersOk, DriverOk, EndedInOrder, SequenceOk;
  }

  /** Every step keeps the invariant, whatever mode orders the queue. */
  lemma StepKeepsSeqInv(q: Queue, st: Step)
    requires SeqInv(q) && Enabled(q, st)
    ensures SeqInv(Next(q, st))
  {
    match st
    case DoAdd(r, elvpriv, where, drain) => AddKeeps(q, r, elvpriv, where, drain);
    case DoDispatch(m) => DispatchKeeps(q, m);
    case DoPeek(plan) => PeekKeeps(q, plan);
    case DoFetch(plan) => FetchKeeps(q, plan);
    case DoRequeue(i) => RequeueKeeps(q, i);
    case DoComplete(i, error) => CompleteKeeps(q, i, error);
    case DoBarError(error) => RecordErrorKeeps(q, error, Pending(q.ordseq));
    case DoSetOrdered(o) => CoreFrame(q, q, Pending(q.ordseq));
  }

  lemma {:induction false} RunsKeepSeqInv(q: Queue, steps: seq<Step>)
    requires SeqInv(q) && IsRun(q, steps)
    ensures SeqInv(RunTo(q, steps))
    decreases steps
  {
    if steps != [] {
      StepKeepsSeqInv(q, steps[0]);
      hide SeqInv, Next, Enabled;
      RunsKeepSeqInv(Next(q, steps[0]), steps[1..]);
    }
  }

  lemma SequenceStarted(q: Queue)
    requires SeqInv(q)
    ensures q.ordseq != ZERO ==> q.ordseq.started
  {
    hide ProxySet, BarrierQueue, Registered, HeadBarriersOk, SchedOk, DriverOk, EndedInOrder, PlainBarrier;
  }
}
