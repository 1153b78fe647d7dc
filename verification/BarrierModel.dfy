/** The ordered-write protocol as a state machine: what each operation on a request
    queue computes.  Every operation runs under the queue lock, so each is one step. */
module BarrierModel {
  import opened Requests

  // The steps of an ordered sequence, as increasing bits.
  const STARTED: nat := 0x01
  const DRAIN: nat := 0x02
  const PREFLUSH: nat := 0x04
  const BAR: nat := 0x08
  const POSTFLUSH: nat := 0x10
  const DONE: nat := 0x20

  /** A word of step bits, one field a bit.  No operation ever sets the bit DONE. */
  datatype Word = Word(started: bool, drain: bool, preflush: bool, bar: bool, postflush: bool)
  {
    function Or(w: Word): Word {
      Word(started || w.started, drain || w.drain, preflush || w.preflush,
           bar || w.bar, postflush || w.postflush)
    }

    /** Whether the two words have a bit in common. */
    predicate Meets(w: Word) {
      (started && w.started) || (drain && w.drain) || (preflush && w.preflush) ||
      (bar && w.bar) || (postflush && w.postflush)
    }
  }

  const ZERO := Word(false, false, false, false, false)
  const STARTED_BIT := ZERO.(started := true)
  const DRAIN_BIT := ZERO.(drain := true)
  const PREFLUSH_BIT := ZERO.(preflush := true)
  const BAR_BIT := ZERO.(bar := true)
  const POSTFLUSH_BIT := ZERO.(postflush := true)

  const EOPNOTSUPP: int := -95

  /** How a queue orders barriers. */
  datatype Ordered = Ordered(
    byDrain: bool, byTag: bool, preflush: bool, bar: bool, postflush: bool, fua: bool)

  const ORDERED_NONE := Ordered(false, false, false, false, false, false)
  const ORDERED_DRAIN := Ordered(true, false, false, true, false, false)
  const ORDERED_DRAIN_FLUSH := Ordered(true, false, true, true, true, false)
  const ORDERED_DRAIN_FUA := Ordered(true, false, true, true, false, true)
  const ORDERED_TAG := Ordered(false, true, false, true, false, false)
  const ORDERED_TAG_FLUSH := Ordered(false, true, true, true, true, false)
  const ORDERED_TAG_FUA := Ordered(false, true, true, true, false, true)

  predicate DrainMode(o: Ordered) {
    o == ORDERED_DRAIN || o == ORDERED_DRAIN_FLUSH || o == ORDERED_DRAIN_FUA
  }

  predicate Accepted(o: Ordered) {
    o == ORDERED_NONE || DrainMode(o) ||
    o == ORDERED_TAG || o == ORDERED_TAG_FLUSH || o == ORDERED_TAG_FUA
  }

  /** One submission: its epoch, and whether it is a barrier or a file system request. */
  datatype Sub = Sub(epoch: nat, barrier: bool, fs: bool)

  /** A barrier that was ended: the error passed to it, the errors that the completions of
      its proxies had reported by then, and whether a sequence was run for it. */
  datatype Ended = Ended(bar: Request, error: int, reported: seq<int>, ordered: bool)

  /** A request queue.  `sched` is what the elevator holds, `driver` what the driver was
      given and has not completed, both in no particular order.  The last five fields record history and are read by no operation. */
  datatype Queue = Queue(
    head: seq<Request>, sched: seq<Request>, driver: seq<Request>, inFlight: int,
    ordcolor: bool, nextOrdered: Ordered, ordered: Ordered,
    ordseq: Word, orderr: int, orig: Request,
    subs: seq<Sub>, epoch: nat, done: set<nat>, ended: seq<Ended>, reported: seq<int>)

  function Count(r: Request): int { if r.Accounted() then 1 else 0 }

  // ----- blk-barrier.c ---------------------------------------------------------------

  /** The lowest step not completed yet; 0 when no sequence runs. */
  function CurSeq(w: Word): nat {
    if w == ZERO then 0
    else if !w.started then STARTED
    else if !w.drain then DRAIN
    else if !w.preflush then PREFLUSH
    else if !w.bar then BAR
    else if !w.postflush then POSTFLUSH
    else DONE
  }

  /** The step a request belongs to while the sequence of barrier `orig` runs. */
  function ReqSeq(orig: Request, r: Request): nat {
    match r.kind
    case PreFlush => PREFLUSH
    case BarProxy => BAR
    case PostFlush => POSTFLUSH
    case Special => DRAIN
    case Fs => if r.color == orig.color then DRAIN else DONE
  }

  function RecordError(q: Queue, error: int): Queue {
    if error == 0 then q
    else q.(orderr := if q.orderr == 0 then error else q.orderr, reported := q.reported + [error])
  }

  function EndBarrier(q: Queue, e: Ended): Queue {
    q.(ended := q.ended + [e], done := q.done + {e.bar.stamp}, inFlight := q.inFlight - Count(e.bar))
  }

  function CompleteSeq(q: Queue, seqs: Word, error: int): Queue {
    var q1 := RecordError(q, error);
    var q2 := q1.(ordseq := q1.ordseq.Or(seqs));
    if CurSeq(q2.ordseq) != DONE then q2
    else EndBarrier(q2.(ordseq := ZERO), Ended(q2.orig, q2.orderr, q2.reported, true))
  }

  function Proxy(orig: Request, kind: Kind): Request {
    if kind.BarProxy?
    then orig.(kind := kind, hard := true, soft := true, started := false, color := false)
    else Request(orig.stamp, orig.epoch, kind, true, true, false, false, false, false, 0, 0)
  }

  /** The mode a sequence runs in: an empty barrier has no bar and no post-flush, and is
      ordered by draining when it has no command to carry a tag. */
  function SequenceMode(o: Ordered, sectors: nat): Ordered {
    if sectors != 0 then o
    else
      var m := o.(bar := false, postflush := false);
      if m.byTag && !m.preflush then m.(byTag := false, byDrain := true) else m
  }

  function ProxyIf(wanted: bool, orig: Request, kind: Kind): seq<Request> {
    if wanted then [Proxy(orig, kind)] else []
  }

  function Proxies(orig: Request, m: Ordered): seq<Request> {
    ProxyIf(m.preflush, orig, PreFlush) + ProxyIf(m.bar, orig, BarProxy) +
    ProxyIf(m.postflush, orig, PostFlush)
  }

  function Skipped(m: Ordered, inFlight: int): Word {
    Word(false, !(m.byDrain && inFlight != 0), !m.preflush, !m.bar, !m.postflush)
  }

  /** The outcome of an ordering decision: the new state, whether the caller should
      return `rq` (possibly nothing) or look at the queue again. */
  datatype Decision = Decision(q: Queue, keep: bool, rq: Option<Request>)

  /** The barrier at the head has been stashed away and its proxies stacked at the head. */
  function Begun(q: Queue): Queue
    requires q.head != []
  {
    var bar := q.head[0];
    var m := SequenceMode(q.nextOrdered, bar.sectors);
    q.(orderr := 0, reported := [], ordered := m, ordseq := q.ordseq.Or(STARTED_BIT),
       orig := bar, inFlight := q.inFlight + Count(bar), head := Proxies(bar, m) + q.head[1..])
  }

  function StartOrdered(q: Queue): Decision
    requires q.head != []
  {
    var q1 := Begun(q);
    var proxies := Proxies(q1.orig, q1.ordered);
    var rq := if (q1.ordered.byDrain && q1.inFlight != 0) || proxies == [] then None else Some(proxies[0]);
    var q2 := CompleteSeq(q1, Skipped(q1.ordered, q1.inFlight), 0);
    Decision(q2, q2.ordseq != ZERO, rq)
  }

  function DoOrdered(q: Queue): Decision
    requires q.head != []
  {
    var rq := q.head[0];
    if q.ordseq == ZERO then
      if !rq.IsBarrier() then Decision(q, true, Some(rq))
      else if q.nextOrdered != ORDERED_NONE then StartOrdered(q)
      else
        var q1 := q.(head := q.head[1..], inFlight := q.inFlight + Count(rq));
        Decision(EndBarrier(q1, Ended(rq, EOPNOTSUPP, [], false)), false, None)
    else if rq.kind.Special? then Decision(q, true, Some(rq))
    else if q.ordered.byTag then
      Decision(q, true, if rq.IsBarrier() && !rq.kind.BarProxy? then None else Some(rq))
    else
      Decision(q, true, if ReqSeq(q.orig, rq) > CurSeq(q.ordseq) then None else Some(rq))
  }

  /** A decision to look again has removed the barrier at the head and added nothing. */
  lemma DoOrderedShrinks(q: Queue)
    requires q.head != [] && !DoOrdered(q).keep
    ensures DoOrdered(q).q.head == q.head[1..] && DoOrdered(q).q.sched == q.sched
  {
  }

  // ----- elevator.c and blk.h --------------------------------------------------------

  /** The elevator hands over its request number `from`, to be placed at index `at`. */
  datatype Move = Move(from: nat, at: nat)

  predicate Unstopped(s: seq<Request>) { forall i :: 0 <= i < |s| ==> !s[i].StopsSort() }

  predicate CanDispatch(q: Queue, m: Move) {
    m.from < |q.sched| && m.at <= |q.head| && Unstopped(q.head[m.at..])
  }

  function InsertAt(s: seq<Request>, at: nat, r: Request): seq<Request>
    requires at <= |s|
  {
    s[..at] + [r] + s[at..]
  }

  function RemoveAt(s: seq<Request>, i: nat): seq<Request>
    requires i < |s|
  {
    s[..i] + s[i + 1..]
  }

  function Dispatch(q: Queue, m: Move): Queue
    requires CanDispatch(q, m)
  {
    q.(sched := RemoveAt(q.sched, m.from), head := InsertAt(q.head, m.at, q.sched[m.from]))
  }

  /** Forced dispatching empties the elevator. */
  predicate Drains(q: Queue, plan: seq<Move>)
    decreases plan
  {
    if plan == [] then q.sched == []
    else CanDispatch(q, plan[0]) && Drains(Dispatch(q, plan[0]), plan[1..])
  }

  function DrainElevator(q: Queue, plan: seq<Move>): Queue
    requires Drains(q, plan)
    decreases plan
  {
    if plan == [] then q else DrainElevator(Dispatch(q, plan[0]), plan[1..])
  }

  /** The head-of-line loop.  `plan` says which request the elevator hands over each
      time the dispatch queue runs empty. */
  function NextRequest(q: Queue, plan: seq<nat>): Decision
    decreases |plan|, |q.head|
  {
    if q.head != [] then
      var d := DoOrdered(q);
      if d.keep then d else (DoOrderedShrinks(q); NextRequest(d.q, plan))
    else if plan == [] || plan[0] >= |q.sched| then Decision(q, true, None)
    else NextRequest(Dispatch(q, Move(plan[0], 0)), plan[1..])
  }

  /** The driver looks at the next request; a request it is shown counts as started. */
  function Peek(q: Queue, plan: seq<nat>): Decision {
    var d := NextRequest(q, plan);
    if d.rq.None? || d.q.head == [] then d
    else
      var rq := d.q.head[0].(started := true);
      Decision(d.q.(head := [rq] + d.q.head[1..]), true, Some(rq))
  }

  /** The driver takes the next request. */
  function Fetch(q: Queue, plan: seq<nat>): Decision {
    var d := Peek(q, plan);
    if d.rq.None? || d.q.head == [] then d
    else
      var rq := d.q.head[0];
      Decision(d.q.(head := d.q.head[1..], driver := d.q.driver + [rq],
                    inFlight := d.q.inFlight + Count(rq)), true, Some(rq))
  }

  /** Where a requeued request of step `s` goes: before the first that is not earlier. */
  function RequeueIndex(orig: Request, head: seq<Request>, s: nat): (i: nat)
    ensures i <= |head|
    ensures forall j :: 0 <= j < i ==> ReqSeq(orig, head[j]) < s
    ensures i < |head| ==> s <= ReqSeq(orig, head[i])
  {
    if head == [] || s <= ReqSeq(orig, head[0]) then 0
    else 1 + RequeueIndex(orig, head[1..], s)
  }

  /** The driver gives back its request number `i`. */
  function Requeue(q: Queue, i: nat): Queue
    requires i < |q.driver|
  {
    var r := q.driver[i];
    var at := if q.ordseq == ZERO then 0 else RequeueIndex(q.orig, q.head, ReqSeq(q.orig, r));
    q.(driver := RemoveAt(q.driver, i), inFlight := q.inFlight - Count(r),
       head := InsertAt(q.head, at, r.(started := false, soft := true)))
  }

  /** Drain check at every completion. */
  function CompletedRequest(q: Queue, r: Request): Queue {
    var q1 := q.(inFlight := q.inFlight - Count(r));
    if q1.ordseq != ZERO && q1.inFlight == 0 && CurSeq(q1.ordseq) == DRAIN &&
       (q1.head == [] || ReqSeq(q1.orig, q1.head[0]) > DRAIN)
    then CompleteSeq(q1, DRAIN_BIT, 0)
    else q1
  }

  /** The step that the completion of a proxy completes. */
  function StepBit(k: Kind): Word {
    match k
    case PreFlush => PREFLUSH_BIT
    case BarProxy => BAR_BIT
    case PostFlush => POSTFLUSH_BIT
    case _ => ZERO
  }

  /** Request number `i` of the driver has been done.  Errors of the bar proxy's data are
      recorded as its data completes. */
  function Returned(q: Queue, i: nat, error: int): Queue
    requires i < |q.driver|
  {
    var r := q.driver[i];
    var q1 := q.(driver := RemoveAt(q.driver, i));
    if r.kind.BarProxy? then RecordError(q1, error)
    else if r.IsProxy() then q1
    else q1.(done := q1.done + {r.stamp})
  }

  /** The driver completes its request number `i`; a proxy also completes its step. */
  function Complete(q: Queue, i: nat, error: int): Queue
    requires i < |q.driver|
  {
    var r := q.driver[i];
    var q1 := CompletedRequest(Returned(q, i, error), r);
    if r.IsProxy() then CompleteSeq(q1, StepBit(r.kind), error) else q1
  }

  datatype Where = Front | Back | Sort

  /** A new request before it is added: stamped, with no colour and not started. */
  predicate Fresh(q: Queue, r: Request) {
    && r.stamp == |q.subs| && r.epoch == q.epoch
    && !r.IsProxy() && !r.started && !r.color
    && (r.hard ==> r.kind.Fs?)
  }

  function InsertionPoint(r: Request, elvpriv: bool, where: Where): Where {
    if where.Sort? && (r.soft || r.hard || !elvpriv) then Back else where
  }

  function Add(q: Queue, r: Request, elvpriv: bool, where: Where, plan: seq<Move>): Queue
    requires InsertionPoint(r, elvpriv, where).Back? ==> Drains(q, plan)
  {
    var c := r.(color := q.ordcolor);
    var q1 := q.(ordcolor := if r.hard then !q.ordcolor else q.ordcolor);
    var q2 := match InsertionPoint(r, elvpriv, where)
              case Front => q1.(head := [c.(soft := true)] + q1.head)
              case Back => AddBack(q, q1, c, plan)
              case Sort => q1.(sched := q1.sched + [c]);
    q2.(subs := q.subs + [Sub(r.epoch, r.hard, r.kind.Fs?)],
        epoch := if r.hard then q.epoch + 1 else q.epoch)
  }

  function AddBack(q: Queue, q1: Queue, c: Request, plan: seq<Move>): Queue
    requires Drains(q, plan)
  {
    var d := DrainElevator(q, plan);
    q1.(sched := d.sched, head := d.head + [c.(soft := true)])
  }

  // ----- Runs ------------------------------------------------------------------------

  datatype Step =
    | DoAdd(r: Request, elvpriv: bool, where: Where, drain: seq<Move>)
    | DoDispatch(m: Move)
    | DoPeek(plan: seq<nat>)
    | DoFetch(plan: seq<nat>)
    | DoRequeue(i: nat)
    | DoComplete(i: nat, error: int)
    | DoBarError(error: int)          // part of the bar proxy's data completes with an error
    | DoSetOrdered(o: Ordered)        // the driver changes the queue's ordering mode

  /** What may happen next.  File system requests are never inserted at the front, only
      they are barriers, and the elevator sorts only requests that belong to it. */
  predicate Enabled(q: Queue, st: Step) {
    match st
    case DoAdd(r, elvpriv, where, drain) =>
      && Fresh(q, r)
      && (where.Front? ==> r.kind.Special?)
      && (where.Sort? ==> r.kind.Fs?)
      && (InsertionPoint(r, elvpriv, where).Back? ==> Drains(q, drain))
    case DoDispatch(m) => CanDispatch(q, m)
    case DoPeek(_) => true
    case DoFetch(_) => true
    case DoRequeue(i) => i < |q.driver|
    case DoComplete(i, _) => i < |q.driver|
    case DoBarError(_) => exists i :: 0 <= i < |q.driver| && q.driver[i].kind.BarProxy?
    case DoSetOrdered(o) => Accepted(o)
  }

  function Next(q: Queue, st: Step): Queue
    requires Enabled(q, st)
  {
    match st
    case DoAdd(r, elvpriv, where, drain) => Add(q, r, elvpriv, where, drain)
    case DoDispatch(m) => Dispatch(q, m)
    case DoPeek(plan) => Peek(q, plan).q
    case DoFetch(plan) => Fetch(q, plan).q
    case DoRequeue(i) => Requeue(q, i)
    case DoComplete(i, error) => Complete(q, i, error)
    case DoBarError(error) => RecordError(q, error)
    case DoSetOrdered(o) => q.(nextOrdered := o, ordered := o)
  }

  predicate IsRun(q: Queue, steps: seq<Step>)
    decreases steps
  {
    steps == [] || (Enabled(q, steps[0]) && IsRun(Next(q, steps[0]), steps[1..]))
  }

  function RunTo(q: Queue, steps: seq<Step>): Queue
    requires IsRun(q, steps)
    decreases steps
  {
    if steps == [] then q else RunTo(Next(q, steps[0]), steps[1..])
  }

  /** A queue nothing was submitted to yet. */
  predicate Initial(q: Queue) {
    && q.head == [] && q.sched == [] && q.driver == [] && q.inFlight == 0
    && !q.ordcolor && q.ordseq == ZERO && q.orderr == 0
    && q.subs == [] && q.epoch == 0 && q.done == {} && q.ended == [] && q.reported == []
    && Accepted(q.nextOrdered)
  }
}
