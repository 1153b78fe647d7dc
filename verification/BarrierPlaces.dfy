/** Conservation: in every state of every run each submitted request is in exactly one
    place (dispatch queue, elevator, driver, running sequence, or completed), and the
    in-flight counter is the number of accounted requests at the driver. */
module BarrierPlaces {
  import opened Requests
  import opened BarrierModel
  import opened Tallies
  import opened BarrierSequence

  function Places(q: Queue, n: nat): nat {
    Tally(q.head, ByStamp(n)) + Tally(q.sched, ByStamp(n)) + Tally(q.driver, ByStamp(n)) +
    (if n in q.done then 1 else 0) +
    (if q.ordseq != ZERO && q.orig.stamp == n then 1 else 0)
  }

  ghost predicate Conserved(q: Queue) {
    && (forall n: nat :: Places(q, n) == if n < |q.subs| then 1 else 0)
    && q.inFlight == Tally(q.driver, InFlight)
  }

  /** The labels of the requests in `s` agree with the record of submissions. */
  ghost predicate Labelled(s: seq<Request>, subs: seq<Sub>) {
    forall i :: 0 <= i < |s| && !s[i].IsProxy() ==>
      s[i].stamp < |subs| && subs[s[i].stamp] == Sub(s[i].epoch, s[i].hard, s[i].kind.Fs?)
  }

  ghost predicate PlaceInv(q: Queue) {
    Conserved(q) && Labelled(q.head, q.subs) && Labelled(q.sched, q.subs) && Labelled(q.driver, q.subs)
  }

  lemma InitialPlaceInv(q: Queue)
    requires Initial(q)
    ensures PlaceInv(q)
  {
  }

  /** Ending a barrier moves it from the running sequence to the completed requests. */
  lemma CompleteSeqPlaces(q: Queue, seqs: Word, error: int)
    requires Conserved(q) && q.ordseq.started && !q.orig.started
    ensures Conserved(CompleteSeq(q, seqs, error))
    ensures CompleteSeq(q, seqs, error).head == q.head && CompleteSeq(q, seqs, error).sched == q.sched
    ensures CompleteSeq(q, seqs, error).driver == q.driver && CompleteSeq(q, seqs, error).subs == q.subs
  {
    var q' := CompleteSeq(q, seqs, error);
    assert Places(q, q.orig.stamp) <= 1;
    forall n: nat
      ensures Places(q', n) == Places(q, n)
    {
    }
  }

  lemma ProxiesUncounted(bar: Request, m: Ordered)
    ensures forall n :: Tally(Proxies(bar, m), ByStamp(n)) == 0
  {
    forall n: nat
      ensures Tally(Proxies(bar, m), ByStamp(n)) == 0
    {
      if Tally(Proxies(bar, m), ByStamp(n)) > 0 {
        var i := TallyWitness(Proxies(bar, m), ByStamp(n));
      }
    }
  }

  lemma StartOrderedPlaces(q: Queue)
    requires PlaceInv(q) && q.ordseq == ZERO && BarrierAt(q.head, 0) && !q.head[0].started
    ensures PlaceInv(StartOrdered(q).q)
  {
    var bar := q.head[0];
    var m := SequenceMode(q.nextOrdered, bar.sectors);
    var proxies := Proxies(bar, m);
    var rest := q.head[1..];
    var q1 := Begun(q);
    ProxiesUncounted(bar, m);
    forall n: nat
      ensures Places(q1, n) == Places(q, n)
    {
      TallyConcat(proxies, rest, ByStamp(n));
    }
    hide Places, Tally;
    CompleteSeqPlaces(q1, Skipped(m, q1.inFlight), 0);
    hide CompleteSeq;
  }

  lemma DoOrderedPlaces(q: Queue)
    requires SeqInv(q) && PlaceInv(q) && q.head != []
    ensures PlaceInv(DoOrdered(q).q)
  {
    if q.ordseq == ZERO {
      NoProxyAtHead(q);
      if BarrierAt(q.head, 0) {
        assert PlainBarrier(q.subs, q.head[0]);
        hide SeqInv;
        if q.nextOrdered != ORDERED_NONE {
          StartOrderedPlaces(q);
          hide StartOrdered, PlaceInv;
        } else {
          RefusePlaces(q);
          hide PlaceInv;
        }
      }
    }
  }

  lemma RefusePlaces(q: Queue)
    requires PlaceInv(q) && q.ordseq == ZERO && BarrierAt(q.head, 0) && !q.head[0].started
    requires q.nextOrdered == ORDERED_NONE
    ensures PlaceInv(DoOrdered(q).q)
  {
    var q' := DoOrdered(q).q;
    assert Places(q, q.head[0].stamp) <= 1;
    forall n: nat
      ensures Places(q', n) == Places(q, n)
    {
    }
    hide Places, Tally;
  }

  lemma MovePlaces(q: Queue, m: Move)
    requires PlaceInv(q) && CanDispatch(q, m)
    ensures PlaceInv(Dispatch(q, m))
  {
    TallyRemove(q.sched, m.from);
    TallyInsert(q.head, m.at, q.sched[m.from]);
    InsertAtIndices(q.head, m.at, q.sched[m.from]);
    forall n: nat
      ensures Places(Dispatch(q, m), n) == Places(q, n)
    {
      hide Tally;
    }
    hide Places, Tally;
  }

  lemma DrainPlaces(q: Queue, plan: seq<Move>)
    requires PlaceInv(q) && Drains(q, plan)
    ensures PlaceInv(DrainElevator(q, plan))
    decreases plan
  {
    hide PlaceInv;
    if plan != [] {
      MovePlaces(q, plan[0]);
      DrainPlaces(Dispatch(q, plan[0]), plan[1..]);
    }
  }

  lemma NextRequestPlaces(q: Queue, plan: seq<nat>)
    requires SeqInv(q) && PlaceInv(q)
    ensures PlaceInv(NextRequest(q, plan).q)
    decreases |plan|, |q.head|
  {
    hide SeqInv, PlaceInv, DoOrdered;
    if q.head != [] {
      DoOrderedKeeps(q);
      DoOrderedPlaces(q);
      if !DoOrdered(q).keep {
        DoOrderedShrinks(q);
        NextRequestPlaces(DoOrdered(q).q, plan);
      }
    } else if plan != [] && plan[0] < |q.sched| {
      DispatchKeeps(q, Move(plan[0], 0));
      MovePlaces(q, Move(plan[0], 0));
      NextRequestPlaces(Dispatch(q, Move(plan[0], 0)), plan[1..]);
    }
  }

  /** Marking the request at the head as started changes no stamp. */
  lemma StartPlaces(q: Queue)
    requires PlaceInv(q) && q.head != []
    ensures PlaceInv(q.(head := [q.head[0].(started := true)] + q.head[1..]))
  {
    var q' := q.(head := [q.head[0].(started := true)] + q.head[1..]);
    assert q'.head[1..] == q.head[1..];
    forall n: nat
      ensures Places(q', n) == Places(q, n)
    {
    }
    hide Places, Tally;
  }

  lemma PeekPlaces(q: Queue, plan: seq<nat>)
    requires SeqInv(q) && PlaceInv(q)
    ensures PlaceInv(Peek(q, plan).q)
  {
    hide SeqInv, PlaceInv, NextRequest;
    NextRequestPlaces(q, plan);
    if NextRequest(q, plan).q.head != [] { StartPlaces(NextRequest(q, plan).q); }
  }

  lemma HandOverPlaces(q: Queue)
    requires PlaceInv(q) && q.head != []
    ensures PlaceInv(q.(head := q.head[1..], driver := q.driver + [q.head[0]],
                        inFlight := q.inFlight + Count(q.head[0])))
  {
    var q' := q.(head := q.head[1..], driver := q.driver + [q.head[0]],
                 inFlight := q.inFlight + Count(q.head[0]));
    TallyAppend(q.driver, q.head[0]);
    forall n: nat
      ensures Places(q', n) == Places(q, n)
    {
    }
    hide Places, Tally;
  }

  lemma FetchPlaces(q: Queue, plan: seq<nat>)
    requires SeqInv(q) && PlaceInv(q)
    ensures PlaceInv(Fetch(q, plan).q)
  {
    hide SeqInv, PlaceInv, Peek;
    PeekPlaces(q, plan);
    if Peek(q, plan).q.head != [] { HandOverPlaces(Peek(q, plan).q); }
  }

  lemma RequeuePlaces(q: Queue, i: nat)
    requires PlaceInv(q) && i < |q.driver|
    ensures PlaceInv(Requeue(q, i))
  {
    var r := q.driver[i];
    var r' := r.(started := false, soft := true);
    var at := if q.ordseq == ZERO then 0 else RequeueIndex(q.orig, q.head, ReqSeq(q.orig, r));
    TallyRemove(q.driver, i);
    TallyInsert(q.head, at, r');
    InsertAtIndices(q.head, at, r');
    hide RequeueIndex;
    forall n: nat
      ensures Places(Requeue(q, i), n) == Places(q, n)
    {
      hide Tally;
    }
    hide Places, Tally;
  }

  /** A completion discounts the request the driver no longer has. */
  lemma CompletedRequestPlaces(q: Queue, r: Request)
    requires forall n: nat :: Places(q, n) == if n < |q.subs| then 1 else 0
    requires q.inFlight == Tally(q.driver, InFlight) + Count(r)
    requires q.ordseq != ZERO ==> q.ordseq.started && !q.orig.started
    ensures Conserved(CompletedRequest(q, r))
    ensures CompletedRequest(q, r) == q.(inFlight := CompletedRequest(q, r).inFlight,
              ordseq := CompletedRequest(q, r).ordseq, done := CompletedRequest(q, r).done,
              ended := CompletedRequest(q, r).ended)
  {
    var q1 := q.(inFlight := q.inFlight - Count(r));
    forall n: nat
      ensures Places(q1, n) == Places(q, n)
    {
    }
    hide Places, Tally;
    if q.ordseq != ZERO { CompleteSeqPlaces(q1, DRAIN_BIT, 0); }
  }

  lemma RecordErrorPlaces(q: Queue, error: int)
    ensures forall n: nat :: Places(RecordError(q, error), n) == Places(q, n)
  {
  }

  lemma RemoveKeepsLabels(s: seq<Request>, i: nat, subs: seq<Sub>)
    requires Labelled(s, subs) && i < |s|
    ensures Labelled(RemoveAt(s, i), subs)
  {
    var t := RemoveAt(s, i);
    assert forall j :: 0 <= j < |t| ==> t[j] == if j < i then s[j] else s[j + 1];
  }

  lemma ReturnedPlaces(q: Queue, i: nat, error: int)
    requires PlaceInv(q) && i < |q.driver|
    ensures forall n: nat :: Places(Returned(q, i, error), n) == if n < |q.subs| then 1 else 0
    ensures Returned(q, i, error).inFlight ==
            Tally(Returned(q, i, error).driver, InFlight) + Count(q.driver[i])
    ensures Labelled(Returned(q, i, error).driver, q.subs)
  {
    var r := q.driver[i];
    TallyRemove(q.driver, i);
    RemoveKeepsLabels(q.driver, i, q.subs);
    assert Places(q, r.stamp) <= 1;
    assert Passes(ByStamp(r.stamp), r) <==> !r.IsProxy();
    forall n: nat
      ensures Places(Returned(q, i, error), n) == Places(q, n)
    {
      hide Tally;
    }
  }

  lemma CompletePlaces(q: Queue, i: nat, error: int)
    requires SeqInv(q) && PlaceInv(q) && i < |q.driver|
    ensures PlaceInv(Complete(q, i, error))
  {
    var r := q.driver[i];
    var q1 := Returned(q, i, error);
    var q2 := CompletedRequest(q1, r);
    OrigUnstarted(q);
    ReturnedPlaces(q, i, error);
    CompletedRequestPlaces(q1, r);
    if r.IsProxy() {
      TakeBackKeeps(q, i);
      DrainCheckOnly(q1, r);
      CompleteSeqPlaces(q2, StepBit(r.kind), error);
    }
    hide SeqInv, Conserved, Labelled, CompletedRequest, CompleteSeq, RecordError, SeqCore;
  }

  lemma OrigUnstarted(q: Queue)
    requires SeqInv(q)
    ensures q.ordseq != ZERO ==> q.ordseq.started && !q.orig.started
  {
    hide ProxySet, BarrierQueue, Registered, HeadBarriersOk, SchedOk, DriverOk, EndedInOrder;
  }

  lemma LongerLabels(s: seq<Request>, subs: seq<Sub>, subs': seq<Sub>)
    requires Labelled(s, subs) && subs <= subs'
    ensures Labelled(s, subs')
  {
  }

  lemma AddPlaces(q: Queue, r: Request, elvpriv: bool, where: Where, plan: seq<Move>)
    requires SeqInv(q) && PlaceInv(q) && Enabled(q, DoAdd(r, elvpriv, where, plan))
    ensures PlaceInv(Add(q, r, elvpriv, where, plan))
  {
    var c := r.(color := q.ordcolor);
    var q' := Add(q, r, elvpriv, where, plan);
    hide SeqInv, PlaceInv, Drains, DrainElevator;
    match InsertionPoint(r, elvpriv, where) {
      case Front =>
        assert InsertAt(q.head, 0, c.(soft := true)) == [c.(soft := true)] + q.head;
        NewRequestPlaces(q, q', 0, c.(soft := true), true);
      case Back => AddBackPlaces(q, q', c.(soft := true), plan);
      case Sort => NewRequestPlaces(q, q', |q.sched|, c, false);
    }
  }

  lemma AddBackPlaces(q: Queue, q': Queue, c: Request, plan: seq<Move>)
    requires SeqInv(q) && PlaceInv(q) && Drains(q, plan) && !c.IsProxy() && c.stamp == |q.subs|
    requires q' == q.(head := DrainElevator(q, plan).head + [c], sched := DrainElevator(q, plan).sched,
                      subs := q'.subs, ordcolor := q'.ordcolor, epoch := q'.epoch)
    requires q'.subs == q.subs + [Sub(c.epoch, c.hard, c.kind.Fs?)]
    ensures PlaceInv(q')
  {
    hide SeqInv, PlaceInv, Drains;
    DrainKeeps(q, plan);
    DrainPlaces(q, plan);
    var d := DrainElevator(q, plan);
    assert InsertAt(d.head, |d.head|, c) == d.head + [c];
    hide DrainElevator;
    NewRequestPlaces(d, q', |d.head|, c, true);
  }

  lemma NewRequestPlaces(q: Queue, q': Queue, at: nat, c: Request, queued: bool)
    requires PlaceInv(q) && !c.IsProxy() && c.stamp == |q.subs|
    requires q' == q.(head := q'.head, sched := q'.sched, subs := q'.subs,
                      ordcolor := q'.ordcolor, epoch := q'.epoch)
    requires q'.subs == q.subs + [Sub(c.epoch, c.hard, c.kind.Fs?)]
    requires queued ==> at <= |q.head| && q'.head == InsertAt(q.head, at, c) && q'.sched == q.sched
    requires !queued ==> at <= |q.sched| && q'.head == q.head && q'.sched == InsertAt(q.sched, at, c)
    ensures PlaceInv(q')
  {
    var s := if queued then q.head else q.sched;
    LongerLabels(q.head, q.subs, q'.subs);
    LongerLabels(q.sched, q.subs, q'.subs);
    LongerLabels(q.driver, q.subs, q'.subs);
    TallyInsert(s, at, c);
    InsertAtIndices(s, at, c);
    hide InsertAt, Tally;
    assert Labelled(InsertAt(s, at, c), q'.subs);
    assert forall n: nat :: Places(q', n) == Places(q, n) + if n == c.stamp then 1 else 0;
  }

  lemma StepKeepsPlaceInv(q: Queue, st: Step)
    requires SeqInv(q) && PlaceInv(q) && Enabled(q, st)
    ensures PlaceInv(Next(q, st))
  {
    match st
    case DoAdd(r, elvpriv, where, drain) => AddPlaces(q, r, elvpriv, where, drain);
    case DoDispatch(m) => MovePlaces(q, m);
    case DoPeek(plan) => PeekPlaces(q, plan);
    case DoFetch(plan) => FetchPlaces(q, plan);
    case DoRequeue(i) => RequeuePlaces(q, i);
    case DoComplete(i, error) => CompletePlaces(q, i, error);
    case DoBarError(error) => RecordErrorPlaces(q, error);
    case DoSetOrdered(o) =>
      var q' := q.(nextOrdered := o, ordered := o);
      assert forall n: nat :: Places(q', n) == Places(q, n);
  }
}
