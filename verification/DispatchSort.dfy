/** Sorting into the dispatch queue: one-way elevator order around the last sector issued, and
    what a request is never carried past. */
module DispatchSort {
  import opened Requests
  import opened BarrierModel

  /** Two requests that may share a run: the same direction, both or neither a discard. */
  predicate SameRun(a: Request, b: Request) { a.discard == b.discard && a.write == b.write }

  /** The order of a one-way sweep that starts at a sector and wraps. */
  predicate Ahead(boundary: nat, a: Request, b: Request) {
    if b.pos >= boundary then a.pos >= boundary && a.pos <= b.pos
    else a.pos >= boundary || a.pos <= b.pos
  }

  ghost predicate InSweep(boundary: nat, s: seq<Request>) {
    forall i, j :: 0 <= i < j < |s| ==> Ahead(boundary, s[i], s[j])
  }

  /** Whether the scan from the tail goes on past a queued request. */
  predicate GoesPast(boundary: nat, rq: Request, pos: Request) {
    && SameRun(rq, pos) && !pos.StopsSort()
    && if rq.pos >= boundary then pos.pos < boundary || rq.pos < pos.pos
       else pos.pos < boundary && rq.pos < pos.pos
  }

  /** Where the scan stops. */
  function SortIndex(boundary: nat, head: seq<Request>, rq: Request): (k: nat)
    ensures k <= |head|
  {
    if head == [] || !GoesPast(boundary, rq, head[|head| - 1]) then |head|
    else SortIndex(boundary, head[..|head| - 1], rq)
  }

  /** Puts a request into the dispatch queue, scanning from its tail. */
  method DispatchSorted(boundary: nat, head: seq<Request>, rq: Request) returns (to: seq<Request>)
    ensures to == InsertAt(head, SortIndex(boundary, head, rq), rq)
  {
    var at := |head|;
    assert head[..at] == head;
    while at > 0 && GoesPast(boundary, rq, head[at - 1])
      invariant 0 <= at <= |head|
      invariant SortIndex(boundary, head, rq) == SortIndex(boundary, head[..at], rq)
    {
      assert head[..at][..at - 1] == head[..at - 1];
      at := at - 1;
    }
    to := InsertAt(head, at, rq);
  }

  /** The requests of a queue's tail that a request may be sorted among. */
  ghost predicate RunFrom(head: seq<Request>, k: nat, rq: Request) {
    && k <= |head|
    && (forall i :: k <= i < |head| ==> SameRun(rq, head[i]) && !head[i].StopsSort())
    && (k > 0 ==> !(SameRun(rq, head[k - 1]) && !head[k - 1].StopsSort()))
  }

  /** A request is carried past nothing but requests of its own run. */
  lemma {:induction false} StaysInRun(boundary: nat, head: seq<Request>, rq: Request)
    ensures var k := SortIndex(boundary, head, rq);
            && (forall i :: k <= i < |head| ==> GoesPast(boundary, rq, head[i]))
            && (k > 0 ==> !GoesPast(boundary, rq, head[k - 1]))
  {
    if head != [] && GoesPast(boundary, rq, head[|head| - 1]) {
      StaysInRun(boundary, head[..|head| - 1], rq);
      var k := SortIndex(boundary, head[..|head| - 1], rq);
      forall i | k <= i < |head| ensures GoesPast(boundary, rq, head[i]) {
        assert i < |head| - 1 ==> head[..|head| - 1][i] == head[i];
      }
    }
  }

  /** Within a run, the scan goes past exactly those that belong after the request. */
  lemma PastIsBehind(boundary: nat, rq: Request, pos: Request)
    requires SameRun(rq, pos) && !pos.StopsSort()
    ensures GoesPast(boundary, rq, pos) <==> !Ahead(boundary, pos, rq)
    ensures Ahead(boundary, pos, rq) || Ahead(boundary, rq, pos)
  {
  }

  lemma AheadTransitive(boundary: nat, a: Request, b: Request, c: Request)
    requires Ahead(boundary, a, b) && Ahead(boundary, b, c)
    ensures Ahead(boundary, a, c)
  {
  }

  /** Sorting keeps the tail run in sweep order, and puts the request in its place in it:
      behind all that are not behind it. */
  lemma SortKeepsSweep(boundary: nat, head: seq<Request>, rq: Request, k: nat)
    requires RunFrom(head, k, rq) && InSweep(boundary, head[k..])
    ensures var at := SortIndex(boundary, head, rq);
            && k <= at && InSweep(boundary, InsertAt(head, at, rq)[k..])
            && (forall i :: k <= i < |head| ==> (i < at <==> Ahead(boundary, head[i], rq)))
  {
    var at := SortIndex(boundary, head, rq);
    StaysInRun(boundary, head, rq);
    assert k <= at;
    forall i | k <= i < |head| ensures i < at <==> Ahead(boundary, head[i], rq) {
      PastIsBehind(boundary, rq, head[i]);
      if i < at {
        BeforeStop(boundary, head, rq, k, i, at);
      }
    }
    SweepInsert(boundary, head, rq, k, at);
  }

  lemma BeforeStop(boundary: nat, head: seq<Request>, rq: Request, k: nat, i: nat, at: nat)
    requires RunFrom(head, k, rq) && InSweep(boundary, head[k..]) && k <= i < at <= |head|
    requires !GoesPast(boundary, rq, head[at - 1])
    ensures Ahead(boundary, head[i], rq)
  {
    PastIsBehind(boundary, rq, head[at - 1]);
    if i < at - 1 {
      assert head[k..][i - k] == head[i] && head[k..][at - 1 - k] == head[at - 1];
      AheadTransitive(boundary, head[i], head[at - 1], rq);
    }
  }

  lemma SweepInsert(boundary: nat, head: seq<Request>, rq: Request, k: nat, at: nat)
    requires RunFrom(head, k, rq) && InSweep(boundary, head[k..]) && k <= at <= |head|
    requires forall i :: k <= i < |head| ==> (i < at <==> Ahead(boundary, head[i], rq))
    ensures InSweep(boundary, InsertAt(head, at, rq)[k..])
  {
    var s, r := head[k..], InsertAt(head, at, rq)[k..];
    forall i, j | 0 <= i < j < |r| ensures Ahead(boundary, r[i], r[j]) {
      var m := at - k;
      assert i != m ==> r[i] == s[if i < m then i else i - 1];
      assert j != m ==> r[j] == s[if j < m then j else j - 1];
      if i == m {
        PastIsBehind(boundary, rq, head[k + j - 1]);
      }
    }
  }

  /** No two requests cover a sector in common. */
  ghost predicate Disjoint(s: seq<Request>) {
    forall i, j :: 0 <= i < j < |s| ==> s[i].pos + s[i].sectors <= s[j].pos || s[j].pos + s[j].sectors <= s[i].pos
  }

  /** Issuing the first request of a run moves the start of the sweep to its end, and what is
      left is in the order of the new sweep. */
  lemma IssueKeepsSweep(boundary: nat, s: seq<Request>)
    requires s != [] && InSweep(boundary, s) && Disjoint(s)
    requires forall i :: 0 <= i < |s| ==> s[i].sectors > 0
    ensures InSweep(s[0].pos + s[0].sectors, s[1..])
  {
    var r := s[1..];
    forall i, j | 0 <= i < j < |r| ensures Ahead(s[0].pos + s[0].sectors, r[i], r[j]) {
      assert r[i] == s[i + 1] && r[j] == s[j + 1];
      assert Ahead(boundary, s[0], s[i + 1]) && Ahead(boundary, s[0], s[j + 1]) && Ahead(boundary, s[i + 1], s[j + 1]);
    }
  }

  /** Sorting is one of the moves that the ordering of barriers allows for. */
  lemma SortIsAMove(q: Queue, from: nat, boundary: nat)
    requires from < |q.sched|
    ensures CanDispatch(q, Move(from, SortIndex(boundary, q.head, q.sched[from])))
  {
    StaysInRun(boundary, q.head, q.sched[from]);
  }
}
