/** The guarantees of the ordered-write protocol, over every run. */
module BarrierTheorems {
  import opened Requests
  import opened BarrierModel
  import opened Tallies
  import opened BarrierSequence
  import opened BarrierPlaces
  import opened BarrierDrain

  /** Every file system request submitted before submission `n` has completed. */
  ghost predicate EarlierDone(q: Queue, n: nat) {
    forall k :: 0 <= k < n && k < |q.subs| && q.subs[k].fs ==> k in q.done
  }

  /** Every barrier submitted before submission `n` has ended. */
  ghost predicate EarlierBarriersDone(q: Queue, n: nat) {
    forall k :: 0 <= k < n && k < |q.subs| && q.subs[k].barrier ==> k in q.done
  }

  /** Submission `n` is a file system request that must have completed. */
  predicate Past(q: Queue, n: nat) {
    n < |q.subs| && q.subs[n].fs &&
    (q.subs[n].epoch < |q.ended| ||
     (q.ordseq != ZERO && q.ordseq.drain && q.subs[n].epoch == |q.ended| && n != q.orig.stamp))
  }

  lemma PastNotQueued(q: Queue, n: nat)
    requires Inv(q) && Past(q, n)
    ensures Tally(q.head, ByStamp(n)) == 0 && Tally(q.sched, ByStamp(n)) == 0
  {
    var t := ByStamp(n);
    EpochsBound(q);
    forall i | 0 <= i < |q.head|
      ensures !Passes(t, q.head[i])
    {
      assert Entry(q.ordseq != ZERO, |q.ended|, q.epoch, q.head[i]);
    }
    TallyZero(q.head, t);
    TallyZero(q.sched, t);
  }

  lemma PastNotAtDriver(q: Queue, n: nat)
    requires Inv(q) && Past(q, n)
    ensures Tally(q.driver, ByStamp(n)) == 0
    ensures q.ordseq != ZERO ==> q.orig.stamp != n
  {
    TallyZero(q.driver, ByStamp(n));
    assert q.ordseq != ZERO ==> PlainBarrier(q.subs, q.orig);
  }

  lemma PastIsDone(q: Queue, n: nat)
    requires Inv(q) && Past(q, n)
    ensures n in q.done
  {
    PastNotQueued(q, n);
    PastNotAtDriver(q, n);
    assert Places(q, n) == 1;
  }

  /** Once the queue has drained, everything submitted before the barrier has completed. */
  lemma DrainedMeansDone(q: Queue)
    requires Inv(q) && q.ordseq != ZERO && q.ordseq.drain
    ensures EarlierDone(q, q.orig.stamp)
  {
    forall k | 0 <= k < q.orig.stamp && k < |q.subs| && q.subs[k].fs
      ensures k in q.done
    {
      assert PlainBarrier(q.subs, q.orig);
      PastIsDone(q, k);
    }
  }

  /** A proxy is at the driver only when every file system request submitted before its
      barrier has completed. */
  lemma ProxyWaits(q: Queue, i: nat)
    requires Inv(q) && i < |q.driver| && q.driver[i].IsProxy()
    ensures q.ordseq != ZERO && EarlierDone(q, q.orig.stamp)
  {
    OneTurn(q, i);
    DrainedMeansDone(q);
  }

  /** A file system request is at the driver only when every barrier submitted before it
      has ended; in particular it was submitted before a barrier whose sequence runs. */
  lemma LaterWaits(q: Queue, i: nat)
    requires Inv(q) && i < |q.driver| && q.driver[i].kind.Fs?
    ensures EarlierBarriersDone(q, q.driver[i].stamp)
    ensures q.ordseq != ZERO ==> q.driver[i].stamp < q.orig.stamp
  {
    var n := q.driver[i].stamp;
    forall k | 0 <= k < n && k < |q.subs| && q.subs[k].barrier
      ensures k in q.done
    {
      PastIsDone(q, k);
    }
    if q.ordseq != ZERO {
      assert PlainBarrier(q.subs, q.orig);
      assert Places(q, n) == 1;
      TallyMember(q.driver, i, ByStamp(n));
    }
  }

  /** A barrier has ended only when everything submitted before it has completed. */
  lemma EndedWaited(q: Queue, k: nat)
    requires Inv(q) && k < |q.ended|
    ensures EarlierDone(q, q.ended[k].bar.stamp) && q.ended[k].bar.stamp in q.done
  {
    var b := q.ended[k].bar;
    assert PlainBarrier(q.subs, b);
    forall n | 0 <= n <= b.stamp && q.subs[n].fs
      ensures n in q.done
    {
      PastIsDone(q, n);
    }
  }

  /** The colour decides rightly: while a sequence runs, a file system request at the head
      of the queue is classed DRAIN exactly when it was submitted before the barrier, and no
      request there belongs to a step that is already over. */
  lemma ColorIsRight(q: Queue)
    requires Inv(q) && q.ordseq != ZERO && q.head != []
    ensures q.head[0].kind.Fs? ==>
              (ReqSeq(q.orig, q.head[0]) == DRAIN <==> q.head[0].stamp < q.orig.stamp)
    ensures !q.head[0].kind.Special? ==> CurSeq(q.ordseq) <= ReqSeq(q.orig, q.head[0])
  {
    RunningIssues(q);
    var n := q.head[0].stamp;
    if q.head[0].kind.Fs? {
      ColorTells(q, 0);
      assert PlainBarrier(q.subs, q.orig);
      assert Places(q, n) == 1;
      TallyMember(q.head, 0, ByStamp(n));
      assert n != q.orig.stamp;
    }
  }

  /** While a sequence runs the dispatch queue is in sequence order: requests submitted
      before the barrier, then its proxies in order, then requests submitted after it. */
  lemma QueueInSequenceOrder(q: Queue, i: nat, j: nat)
    requires Inv(q) && q.ordseq != ZERO && i < j < |q.head|
    ensures q.head[i].kind.Fs? && q.orig.stamp < q.head[i].stamp ==>
              !q.head[j].IsProxy() && (q.head[j].kind.Fs? ==> q.orig.stamp < q.head[j].stamp)
    ensures q.head[i].IsProxy() && q.head[j].IsProxy() ==> Rank(0, q.head[i]) < Rank(0, q.head[j])
    ensures q.head[j].kind.Fs? && q.head[j].stamp < q.orig.stamp ==> !q.head[i].IsProxy()
  {
    assert InOrder(true, |q.ended|, q.head[i], q.head[j]);
    if q.head[i].IsProxy() {
      TallyMember(q.head, i, ByKind(q.head[i].kind));
      assert !Passes(ByKind(q.head[i].kind), q.head[j]);
    }
    SidesOfBarrier(q, i);
    SidesOfBarrier(q, j);
    hide SeqInv, PlaceInv, DrainInv;
  }

  lemma SidesOfBarrier(q: Queue, i: nat)
    requires Inv(q) && q.ordseq != ZERO && i < |q.head|
    ensures q.head[i].kind.Fs? ==>
              (q.head[i].epoch <= |q.ended| <==> q.head[i].stamp < q.orig.stamp)
  {
    if q.head[i].kind.Fs? {
      assert PlainBarrier(q.subs, q.orig);
      assert Places(q, q.head[i].stamp) == 1;
      TallyMember(q.head, i, ByStamp(q.head[i].stamp));
      assert Entry(true, |q.ended|, q.epoch, q.head[i]);
    }
  }

  /** A running sequence never gets stuck: either the driver has something to complete, or
      the head-of-line loop hands it something. */
  lemma NeverStuck(q: Queue, plan: seq<nat>)
    requires Inv(q) && q.ordseq != ZERO && q.driver == []
    ensures NextRequest(q, plan).rq.Some?
  {
    hide SeqInv, PlaceInv, DrainInv;
    FirstIsDue(q);
    assert DoOrdered(q) == Decision(q, true, Some(q.head[0]));
    hide DoOrdered;
  }

  lemma FirstIsDue(q: Queue)
    requires Inv(q) && q.ordseq != ZERO && q.driver == []
    ensures q.head != [] && !q.ordered.byTag
    ensures q.head[0].kind.Special? || ReqSeq(q.orig, q.head[0]) <= CurSeq(q.ordseq)
  {
    if q.ordseq.drain {
      var k := if !q.ordseq.preflush then PreFlush else if !q.ordseq.bar then BarProxy else PostFlush;
      assert Tally(q.head, ByKind(k)) + Tally(q.driver, ByKind(k)) == 1;
      var i := TallyWitness(q.head, ByKind(k));
      assert i == 0 || InOrder(true, |q.ended|, q.head[0], q.head[i]);
      assert Entry(true, |q.ended|, q.epoch, q.head[0]);
      PopKeepsProxies(q.head, q.driver, Pending(q.ordseq));
    }
  }

  // ----- Runs ------------------------------------------------------------------------

  lemma {:induction false} RunsKeepInv(q: Queue, steps: seq<Step>)
    requires Inv(q) && IsDrainRun(q, steps)
    ensures IsRun(q, steps) && Inv(RunTo(q, steps))
    decreases steps
  {
    hide Inv, Enabled, Next;
    DrainRunsAreRuns(q, steps);
    if steps != [] {
      StepKeepsInv(q, steps[0]);
      RunsKeepInv(Next(q, steps[0]), steps[1..]);
    }
  }

  /** What a state promises about order. */
  ghost predicate Safe(q: Queue) {
    && (forall i :: 0 <= i < |q.driver| && q.driver[i].IsProxy() ==>
          q.ordseq != ZERO && EarlierDone(q, q.orig.stamp))
    && (forall i :: 0 <= i < |q.driver| && q.driver[i].kind.Fs? ==>
          EarlierBarriersDone(q, q.driver[i].stamp))
    && (forall k :: 0 <= k < |q.ended| ==> EarlierDone(q, q.ended[k].bar.stamp))
  }

  /** Barrier safety.  In every state that a queue in a drain mode reaches by additions,
      dispatches, hand-overs, requeues and completions in any order: a proxy at the driver
      has no uncompleted file system request submitted before its barrier, a file system
      request at the driver has no unended barrier submitted before it, an ended barrier
      has no uncompleted request before it, and a running sequence is not stuck. */
  lemma BarrierSafety(q0: Queue, steps: seq<Step>, plan: seq<nat>)
    requires Initial(q0) && DrainMode(q0.nextOrdered) && IsDrainRun(q0, steps)
    ensures IsRun(q0, steps)
    ensures var q := RunTo(q0, steps);
      && Safe(q)
      && (q.ordseq != ZERO && q.driver == [] ==> NextRequest(q, plan).rq.Some?)
  {
    InitialInv(q0);
    RunsKeepInv(q0, steps);
    var q := RunTo(q0, steps);
    hide Inv, IsDrainRun, RunTo, NextRequest;
    forall i | 0 <= i < |q.driver| && q.driver[i].IsProxy()
      ensures q.ordseq != ZERO && EarlierDone(q, q.orig.stamp)
    {
      ProxyWaits(q, i);
    }
    forall i | 0 <= i < |q.driver| && q.driver[i].kind.Fs?
      ensures EarlierBarriersDone(q, q.driver[i].stamp)
    {
      LaterWaits(q, i);
    }
    forall k | 0 <= k < |q.ended|
      ensures EarlierDone(q, q.ended[k].bar.stamp)
    {
      EndedWaited(q, k);
    }
    if q.ordseq != ZERO && q.driver == [] { NeverStuck(q, plan); }
  }

  /** In every mode, drain or tag or mixed: barriers end in the order of submission, each
      once, with the first error their proxies reported; a sequence runs exactly while one
      of its steps is unfinished; and no step is completed twice. */
  lemma BarriersEndOnce(q0: Queue, steps: seq<Step>)
    requires Initial(q0) && IsRun(q0, steps)
    ensures var q := RunTo(q0, steps);
      && EndedInOrder(q.ended, q.subs)
      && (q.ordseq != ZERO ==> q.ordseq.started && q.orig.epoch == |q.ended|)
      && q.ordseq != Word(true, true, true, true, true)
      && (forall j, k :: 0 <= j < k < |q.ended| ==> q.ended[j].bar.stamp < q.ended[k].bar.stamp)
      && (forall r :: r in q.driver && r.IsProxy() ==> q.ordseq.started && Pending(q.ordseq).Has(r.kind))
  {
    InitialSeqInv(q0);
    RunsKeepSeqInv(q0, steps);
    var q := RunTo(q0, steps);
    hide IsRun, RunTo;
    OrigUnstarted(q);
    forall j, k | 0 <= j < k < |q.ended|
      ensures q.ended[j].bar.stamp < q.ended[k].bar.stamp
    {
      assert PlainBarrier(q.subs, q.ended[j].bar) && PlainBarrier(q.subs, q.ended[k].bar);
    }
    forall i | 0 <= i < |q.driver| && q.driver[i].IsProxy()
      ensures q.ordseq.started && Pending(q.ordseq).Has(q.driver[i].kind)
    {
      TakeBackKeeps(q, i);
    }
  }
}
