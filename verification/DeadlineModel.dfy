/** The deadline scheduler: two indexes per direction, batches and starvation, as values. */
module DeadlineModel {
  import opened Requests
  import opened IdLists

  datatype Dir = Read | Write

  function Other(d: Dir): Dir { if d == Read then Write else Read }

  /** What the scheduler knows of a request; `time` is when it expires. */
  datatype Info = Info(dir: Dir, pos: nat, sectors: nat, time: int)

  /** The requests of one direction, by sector and by age, and the one to go on with. */
  datatype Lane = Lane(sort: seq<nat>, fifo: seq<nat>, next: Option<nat>)

  /** The scheduler.  `issued` and `merged` are what has left it, in order. */
  datatype State = State(
    info: map<nat, Info>, readLane: Lane, writeLane: Lane,
    batching: nat, starved: nat, lastSector: nat, now: int,
    fifoBatch: nat, writesStarved: nat, readExpire: nat, writeExpire: nat,
    issued: seq<nat>, merged: seq<nat>)

  function LaneOf(s: State, d: Dir): Lane { if d == Read then s.readLane else s.writeLane }

  function WithLane(s: State, d: Dir, l: Lane): State {
    if d == Read then s.(readLane := l) else s.(writeLane := l)
  }

  function Expire(s: State, d: Dir): nat { if d == Read then s.readExpire else s.writeExpire }

  // ----- Lists -----------------------------------------------------------------------

  function Removed(s: seq<nat>, x: nat): seq<nat> {
    if x in s then DropAt(s, IndexOf(s, x)) else s
  }

  /** The request after one in a list. */
  function Latter(s: seq<nat>, x: nat): Option<nat> {
    if x in s && IndexOf(s, x) + 1 < |s| then Some(s[IndexOf(s, x) + 1]) else None
  }

  function PosOf(info: map<nat, Info>, x: nat): int { if x in info then info[x].pos else 0 }

  function TimeOf(info: map<nat, Info>, x: nat): int { if x in info then info[x].time else 0 }

  /** A request at a sector, if there is one. */
  function AliasOf(info: map<nat, Info>, s: seq<nat>, pos: nat): (a: Option<nat>)
    ensures a.Some? ==> a.value in s && PosOf(info, a.value) == pos
    ensures a.None? ==> forall x :: x in s ==> PosOf(info, x) != pos
  {
    if s == [] then None
    else if PosOf(info, s[0]) == pos then Some(s[0])
    else AliasOf(info, s[1..], pos)
  }

  /** The place for a sector: after all that are lower. */
  function PlaceFor(info: map<nat, Info>, s: seq<nat>, pos: nat): (k: nat)
    ensures k <= |s|
  {
    if s == [] || PosOf(info, s[0]) > pos then 0 else 1 + PlaceFor(info, s[1..], pos)
  }

  // ----- Operations ------------------------------------------------------------------

  /** Takes a request off both indexes. */
  function Removing(l: Lane, x: nat): Lane {
    Lane(Removed(l.sort, x), Removed(l.fifo, x), if l.next == Some(x) then Latter(l.sort, x) else l.next)
  }

  /** Moves a request to the dispatch queue: the next one in its direction goes on. */
  function MoveRequest(s: State, x: nat): State
    requires x in s.info
  {
    var d := s.info[x].dir;
    var off := WithLane(s, Other(d), LaneOf(s, Other(d)).(next := None));
    var l := LaneOf(s, d);
    WithLane(off, d, Removing(l.(next := Latter(l.sort, x)), x))
      .(lastSector := s.info[x].pos + s.info[x].sectors, issued := s.issued + [x])
  }

  /** Makes way for a sector: requests already there go to the dispatch queue. */
  function Cleared(s: State, d: Dir, pos: nat): State
    decreases |LaneOf(s, d).sort|
  {
    var a := AliasOf(s.info, LaneOf(s, d).sort, pos);
    if a.None? || a.value !in s.info || s.info[a.value].dir != d then s
    else Cleared(MoveRequest(s, a.value), d, pos)
  }

  /** Puts a request into the sector order of its direction. */
  function Sorted(s: State, x: nat): State
    requires x in s.info
  {
    var d, pos := s.info[x].dir, s.info[x].pos;
    var c := Cleared(s, d, pos);
    var l := LaneOf(c, d);
    WithLane(c, d, l.(sort := PutAt(l.sort, PlaceFor(c.info, l.sort, pos), x)))
  }

  /** A new request. */
  function Add(s: State, x: nat, i: Info): State {
    var t := Sorted(s.(info := s.info[x := i]), x);
    var l := LaneOf(t, i.dir);
    WithLane(t.(info := t.info[x := i.(time := s.now + Expire(s, i.dir))]), i.dir, l.(fifo := l.fifo + [x]))
  }

  /** A request that has grown at the front starts at another sector. */
  function FrontMerged(s: State, x: nat, pos: nat, sectors: nat): State
    requires x in s.info
  {
    var d := s.info[x].dir;
    var l := LaneOf(s, d);
    var off := WithLane(s, d, l.(sort := Removed(l.sort, x)));
    Sorted(off.(info := s.info[x := s.info[x].(pos := pos, sectors := sectors)]), x)
  }

  /** A request takes over another's data; and its place in the fifo and its deadline, if
      those are earlier. */
  function MergedRequests(s: State, x: nat, gone: nat): State
    requires x in s.info && gone in s.info
  {
    var d := s.info[gone].dir;
    var l := LaneOf(s, d);
    var earlier := x in l.fifo && gone in l.fifo && s.info[gone].time < s.info[x].time;
    var rest := Removed(l.fifo, x);
    var fifo := if earlier && gone in rest then PutAt(rest, IndexOf(rest, gone) + 1, x) else l.fifo;
    var info := if earlier && gone in rest then s.info[x := s.info[x].(time := s.info[gone].time)] else s.info;
    WithLane(s, d, Removing(l.(fifo := fifo), gone)).(info := info, merged := s.merged + [gone])
  }

  /** Whether the oldest request of a direction is past its time. */
  predicate Expired(s: State, d: Dir) {
    LaneOf(s, d).fifo != [] && s.now > TimeOf(s.info, LaneOf(s, d).fifo[0])
  }

  /** The direction of the next batch, and the starvation count after choosing it. */
  function Choose(s: State): (Option<Dir>, nat) {
    if s.readLane.fifo != [] then
      if s.writeLane.fifo != [] then
        if s.starved >= s.writesStarved then (Some(Write), 0) else (Some(Read), s.starved + 1)
      else (Some(Read), s.starved)
    else if s.writeLane.fifo != [] then (Some(Write), 0)
    else (None, s.starved)
  }

  /** The first request of a batch: the oldest if it has expired or there is none to go on
      with, else the next in sector order. */
  function FirstOf(s: State, d: Dir): Option<nat> {
    var l := LaneOf(s, d);
    if l.fifo == [] then None
    else if Expired(s, d) || l.next.None? then Some(l.fifo[0])
    else l.next
  }

  /** The request to go on with. */
  function Going(s: State): Option<nat> { if s.writeLane.next.Some? then s.writeLane.next else s.readLane.next }

  /** The request chosen, if any, and the counters after choosing it. */
  datatype Pick = Pick(rq: Option<nat>, batching: nat, starved: nat)

  /** Goes on with a batch while it may, else starts one. */
  function Select(s: State): Pick {
    if Going(s).Some? && s.batching < s.fifoBatch then Pick(Going(s), s.batching + 1, s.starved)
    else
      var (d, starved) := Choose(s);
      if d.None? then Pick(None, s.batching, s.starved) else Pick(FirstOf(s, d.value), 1, starved)
  }

  /** One request dispatched, if there is any. */
  function Dispatch(s: State): (State, Option<nat>) {
    var p := Select(s);
    if p.rq.None? || p.rq.value !in s.info then (s, None)
    else (MoveRequest(s.(batching := p.batching, starved := p.starved), p.rq.value), p.rq)
  }
}
