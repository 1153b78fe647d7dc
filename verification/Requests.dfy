/** Requests as the dispatch queue, the elevator and the driver see them. */
module Requests {

  datatype Option<+T> = None | Some(value: T)

  /** What a request is for.  `Fs` carries file system data; `Special` is every other
      request submitted from outside; the last three are the proxies that stand for one
      barrier while its sequence runs.  The pre- and post-flush proxies are not file
      system requests, the bar proxy is one. */
  datatype Kind = Fs | Special | PreFlush | BarProxy | PostFlush

  /** `stamp` (position in the order of submission) and `epoch` (number of barriers
      submitted earlier) are labels for stating properties: no operation branches on them. */
  datatype Request = Request(
    stamp: nat, epoch: nat, kind: Kind,
    hard: bool, soft: bool, started: bool, color: bool,
    discard: bool, write: bool, pos: nat, sectors: nat)
  {
    predicate IsFs() { kind.Fs? || kind.BarProxy? }

    predicate IsBarrier() { IsFs() && hard }

    predicate IsProxy() { kind.PreFlush? || kind.BarProxy? || kind.PostFlush? }

    /** Counted in the queue's number of requests in flight once dequeued. */
    predicate Accounted() { started && (IsFs() || discard) }

    /** Flags that no later-dispatched request may be sorted past. */
    predicate StopsSort() { soft || hard || started }
  }
}
