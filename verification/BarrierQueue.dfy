/** The request queue as the kernel keeps it: one object whose fields every operation
    updates in place.  Each method is proved to do what the state machine says, and the
    checks that would stop the kernel are preconditions met at every call. */
module BarrierQueue {
  import opened Requests
  import M = BarrierModel
  import S = BarrierSequence

  class RequestQueue {
    var head: seq<Request>
    var sched: seq<Request>
    var driver: seq<Request>
    var inFlight: int
    var ordcolor: bool
    var nextOrdered: M.Ordered
    var ordered: M.Ordered
    var ordseq: M.Word
    var orderr: int
    var orig: Request

    ghost var subs: seq<M.Sub>
    ghost var epoch: nat
    ghost var done: set<nat>
    ghost var ended: seq<M.Ended>
    ghost var reported: seq<int>

    ghost function View(): M.Queue
      reads this
    {
      M.Queue(head, sched, driver, inFlight, ordcolor, nextOrdered, ordered, ordseq, orderr, orig,
              subs, epoch, done, ended, reported)
    }

    constructor (o: M.Ordered, unused: Request)
      requires M.Accepted(o)
      ensures M.Initial(View()) && nextOrdered == o && S.SeqInv(View())
    {
      head, sched, driver, inFlight := [], [], [], 0;
      ordcolor, nextOrdered, ordered, ordseq, orderr, orig := false, o, o, M.ZERO, 0, unused;
      subs, epoch, done, ended, reported := [], 0, {}, [], [];
      new;
      S.InitialSeqInv(View());
    }

    // ----- blk-barrier.c -------------------------------------------------------------

    method RecordError(error: int)
      modifies this`orderr, this`reported
      ensures View() == M.RecordError(old(View()), error)
    {
      if error != 0 {
        if orderr == 0 { orderr := error; }
        reported := reported + [error];
      }
    }

    method CompleteSeq(seqs: M.Word, error: int) returns (finished: bool)
      requires !ordseq.Meets(seqs) && ordseq.started
      modifies this
      ensures View() == M.CompleteSeq(old(View()), seqs, error)
      ensures finished <==> ordseq == M.ZERO
    {
      RecordError(error);
      ordseq := ordseq.Or(seqs);
      if M.CurSeq(ordseq) != M.DONE { return false; }
      ordseq := M.ZERO;
      EndRequestAll(orig, orderr, true);
      return true;
    }

    /** Ending a barrier for good: it leaves the counters as a completed request would. */
    method EndRequestAll(rq: Request, error: int, ghost wasOrdered: bool)
      modifies this`inFlight, this`ended, this`done
      ensures View() == M.EndBarrier(old(View()), M.Ended(rq, error, if wasOrdered then reported else [], wasOrdered))
    {
      if rq.Accounted() { inFlight := inFlight - 1; }
      ended := ended + [M.Ended(rq, error, if wasOrdered then reported else [], wasOrdered)];
      done := done + {rq.stamp};
    }

    method InsertFront(rq: Request)
      modifies this`head
      ensures head == [rq] + old(head)
    {
      head := [rq] + head;
    }

    method Dequeue()
      requires head != []
      modifies this`head, this`inFlight
      ensures head == old(head)[1..] && inFlight == old(inFlight) + M.Count(old(head)[0])
    {
      if head[0].Accounted() { inFlight := inFlight + 1; }
      head := head[1..];
    }

    method InsertProxy(wanted: bool, bar: Request, kind: Kind, next: Option<Request>) returns (rq: Option<Request>)
      modifies this`head
      ensures head == M.ProxyIf(wanted, bar, kind) + old(head)
      ensures rq == if wanted then Some(M.Proxy(bar, kind)) else next
    {
      rq := next;
      if wanted {
        rq := Some(M.Proxy(bar, kind));
        InsertFront(rq.value);
      }
    }

    /** Stacks the proxies at the head, the last one first. */
    method QueueProxies(bar: Request) returns (rq: Option<Request>, skip: M.Word)
      modifies this`head
      ensures head == M.Proxies(bar, ordered) + old(head)
      ensures rq == if M.Proxies(bar, ordered) == [] then None else Some(M.Proxies(bar, ordered)[0])
      ensures skip == M.Word(false, false, !ordered.preflush, !ordered.bar, !ordered.postflush)
    {
      rq := InsertProxy(ordered.postflush, bar, PostFlush, None);
      rq := InsertProxy(ordered.bar, bar, BarProxy, rq);
      rq := InsertProxy(ordered.preflush, bar, PreFlush, rq);
      skip := M.Word(false, false, !ordered.preflush, !ordered.bar, !ordered.postflush);
      S.Regroup(M.ProxyIf(ordered.preflush, bar, PreFlush), M.ProxyIf(ordered.bar, bar, BarProxy),
                M.ProxyIf(ordered.postflush, bar, PostFlush), old(head));
    }

    method ChooseMode(sectors: nat)
      modifies this`ordered
      ensures ordered == M.SequenceMode(nextOrdered, sectors)
    {
      ordered := nextOrdered;
      if sectors == 0 {
        ordered := ordered.(bar := false, postflush := false);
        if ordered.byTag && !ordered.preflush {
          ordered := ordered.(byTag := false, byDrain := true);
        }
      }
    }

    /** Stashes the barrier away. */
    method BeginSequence(bar: Request)
      requires head != [] && bar == head[0]
      modifies this`ordered, this`head, this`inFlight, this`orderr, this`reported, this`ordseq, this`orig
      ensures ordered == M.SequenceMode(nextOrdered, bar.sectors) && ordseq == old(ordseq).Or(M.STARTED_BIT)
      ensures head == old(head)[1..] && orig == bar && inFlight == old(inFlight) + M.Count(bar)
      ensures orderr == 0 && reported == []
    {
      hide M.SequenceMode, M.Count;
      ChooseMode(bar.sectors);
      Dequeue();
      orderr, reported, ordseq, orig := 0, [], ordseq.Or(M.STARTED_BIT), bar;
    }

    /** Replaces the barrier at the head by its proxies and completes the skipped steps. */
    method StartOrdered() returns (keep: bool, rq: Option<Request>)
      requires head != [] && ordseq == M.ZERO
      modifies this
      ensures M.Decision(View(), keep, rq) == M.StartOrdered(old(View()))
    {
      var bar := head[0];
      BeginSequence(bar);
      var skip;
      rq, skip := QueueProxies(bar);
      hide M.Proxies, M.SequenceMode, M.CompleteSeq;
      assert View() == M.Begun(old(View()));
      if ordered.byDrain && inFlight != 0 { rq := None; } else { skip := skip.(drain := true); }
      var finished := CompleteSeq(skip, 0);
      keep := !finished;
    }

    method DoOrdered() returns (keep: bool, rq: Option<Request>)
      requires head != []
      modifies this
      ensures M.Decision(View(), keep, rq) == M.DoOrdered(old(View()))
    {
      var first := head[0];
      if ordseq == M.ZERO {
        if !first.IsBarrier() { return true, Some(first); }
        if nextOrdered != M.ORDERED_NONE {
          keep, rq := StartOrdered();
          return;
        }
        Dequeue();
        EndRequestAll(first, M.EOPNOTSUPP, false);
        return false, None;
      }
      keep, rq := true, Some(first);
      if first.kind.Special? { return; }
      if ordered.byTag {
        if first.IsBarrier() && !first.kind.BarProxy? { rq := None; }
      } else if M.ReqSeq(orig, first) > M.CurSeq(ordseq) {
        rq := None;
      }
    }

    // ----- blk.h and blk-core.c ------------------------------------------------------

    method Dispatch(m: M.Move)
      requires M.CanDispatch(View(), m)
      modifies this`sched, this`head
      ensures View() == M.Dispatch(old(View()), m)
    {
      var rq := sched[m.from];
      sched := M.RemoveAt(sched, m.from);
      head := M.InsertAt(head, m.at, rq);
    }

    /** The head-of-line loop. */
    method NextRequest(plan: seq<nat>) returns (rq: Option<Request>)
      modifies this
      ensures View() == M.NextRequest(old(View()), plan).q && rq == M.NextRequest(old(View()), plan).rq
    {
      var asked := 0;
      while true
        invariant asked <= |plan|
        invariant M.NextRequest(View(), plan[asked..]) == M.NextRequest(old(View()), plan)
        decreases |plan| - asked, |head|
      {
        if head != [] {
          ghost var before := View();
          var keep;
          keep, rq := DoOrdered();
          if keep { return; }
          M.DoOrderedShrinks(before);
        } else {
          if asked == |plan| || plan[asked] >= |sched| { return None; }
          assert plan[asked..][1..] == plan[asked + 1..];
          Dispatch(M.Move(plan[asked], 0));
          asked := asked + 1;
        }
      }
    }

    method Peek(plan: seq<nat>) returns (rq: Option<Request>)
      requires S.SeqInv(View())
      modifies this
      ensures View() == M.Peek(old(View()), plan).q && rq == M.Peek(old(View()), plan).rq
      ensures S.SeqInv(View()) && (rq.Some? ==> head != [] && head[0] == rq.value)
    {
      S.NextRequestKeeps(View(), plan);
      S.PeekKeeps(View(), plan);
      rq := NextRequest(plan);
      if rq.Some? {
        rq := Some(head[0].(started := true));
        head := [rq.value] + head[1..];
      }
    }

    /** The driver takes the next request. */
    method Fetch(plan: seq<nat>) returns (rq: Option<Request>)
      requires S.SeqInv(View())
      modifies this
      ensures View() == M.Fetch(old(View()), plan).q && rq == M.Fetch(old(View()), plan).rq
      ensures S.SeqInv(View())
    {
      S.FetchKeeps(View(), plan);
      rq := Peek(plan);
      if rq.Some? {
        Dequeue();
        driver := driver + [rq.value];
      }
    }

    // ----- elevator.c ----------------------------------------------------------------

    /** Where a requeued request goes: before the first one that is not earlier. */
    method RequeuePoint(rq: Request) returns (at: nat)
      ensures at == if ordseq == M.ZERO then 0 else M.RequeueIndex(orig, head, M.ReqSeq(orig, rq))
    {
      at := 0;
      if ordseq != M.ZERO {
        var s := M.ReqSeq(orig, rq);
        while at < |head| && s > M.ReqSeq(orig, head[at])
          invariant at <= |head|
          invariant forall j :: 0 <= j < at ==> M.ReqSeq(orig, head[j]) < s
        {
          at := at + 1;
        }
      }
    }

    /** Puts a request back in sequence order, or at the front when no sequence runs. */
    method Requeue(i: nat)
      requires i < |driver| && S.SeqInv(View())
      modifies this
      ensures View() == M.Requeue(old(View()), i) && S.SeqInv(View())
    {
      hide S.SeqInv, M.InsertAt, M.RemoveAt, M.RequeueIndex;
      S.RequeueKeeps(View(), i);
      var rq := driver[i];
      var at := RequeuePoint(rq);
      driver := M.RemoveAt(driver, i);
      if rq.Accounted() { inFlight := inFlight - 1; }
      head := M.InsertAt(head, at, rq.(started := false, soft := true));
    }

    /** The drain check at every completion. */
    method CompletedRequest(rq: Request)
      requires ordseq != M.ZERO ==> ordseq.started
      modifies this
      ensures View() == M.CompletedRequest(old(View()), rq)
    {
      if rq.Accounted() { inFlight := inFlight - 1; }
      if ordseq != M.ZERO {
        if inFlight == 0 && M.CurSeq(ordseq) == M.DRAIN &&
           (head == [] || M.ReqSeq(orig, head[0]) > M.DRAIN) {
          var _ := CompleteSeq(M.DRAIN_BIT, 0);
        }
      }
    }

    /** The driver has done a request. */
    method TakeBack(i: nat, error: int) returns (rq: Request)
      requires i < |driver|
      modifies this
      ensures View() == M.Returned(old(View()), i, error) && rq == old(driver)[i]
    {
      rq := driver[i];
      driver := M.RemoveAt(driver, i);
      hide M.RemoveAt;
      if rq.kind.BarProxy? {
        RecordError(error);
      } else if !rq.IsProxy() {
        done := done + {rq.stamp};
      }
    }

    /** The driver completes a request; the end routine of a proxy completes its step. */
    method Complete(i: nat, error: int)
      requires i < |driver| && S.SeqInv(View())
      modifies this
      ensures View() == M.Complete(old(View()), i, error) && S.SeqInv(View())
    {
      S.CompleteKeeps(View(), i, error);
      S.ReturnedSteps(View(), i, error);
      hide S.SeqInv, M.CompletedRequest, M.CompleteSeq, M.Returned;
      var rq := TakeBack(i, error);
      CompletedRequest(rq);
      if rq.IsProxy() {
        var _ := CompleteSeq(M.StepBit(rq.kind), error);
      }
    }

    method DrainElevator(plan: seq<M.Move>)
      requires M.Drains(View(), plan)
      modifies this`sched, this`head
      ensures View() == M.DrainElevator(old(View()), plan)
    {
      var n := 0;
      while n < |plan|
        invariant n <= |plan|
        invariant M.Drains(View(), plan[n..])
        invariant M.DrainElevator(View(), plan[n..]) == M.DrainElevator(old(View()), plan)
      {
        assert plan[n..][1..] == plan[n + 1..];
        Dispatch(plan[n]);
        n := n + 1;
      }
    }

    method Insert(c: Request, place: M.Where, drain: seq<M.Move>)
      requires place.Back? ==> M.Drains(View(), drain)
      modifies this`head, this`sched
      ensures place.Front? ==> View() == old(View()).(head := [c.(soft := true)] + old(head))
      ensures place.Back? ==> View() == M.AddBack(old(View()), old(View()), c, drain)
      ensures place.Sort? ==> View() == old(View()).(sched := old(sched) + [c])
    {
      match place {
        case Front => InsertFront(c.(soft := true));
        case Back =>
          DrainElevator(drain);
          head := head + [c.(soft := true)];
        case Sort => sched := sched + [c];
      }
    }

    /** A new request: coloured, then put where its flags and the caller say. */
    method Add(rq: Request, elvpriv: bool, where: M.Where, drain: seq<M.Move>)
      requires M.Enabled(View(), M.DoAdd(rq, elvpriv, where, drain)) && S.SeqInv(View())
      modifies this
      ensures View() == M.Add(old(View()), rq, elvpriv, where, drain) && S.SeqInv(View())
    {
      hide S.SeqInv, M.Drains, M.DrainElevator;
      S.AddKeeps(View(), rq, elvpriv, where, drain);
      Insert(rq.(color := ordcolor), M.InsertionPoint(rq, elvpriv, where), drain);
      if rq.hard { ordcolor := !ordcolor; }
      subs := subs + [M.Sub(rq.epoch, rq.hard, rq.kind.Fs?)];
      if rq.hard { epoch := epoch + 1; }
    }
  }
}
