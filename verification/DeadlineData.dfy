/** The deadline scheduler's data, changed in place by its callbacks. */
module DeadlineData {
  import opened Requests
  import opened IdLists
  import opened DeadlineModel
  import I = DeadlineInvariant

  class Scheduler {
    var info: map<nat, Info>
    var readLane: Lane
    var writeLane: Lane
    var batching: nat
    var starved: nat
    var lastSector: nat
    var now: int
    const fifoBatch: nat
    const writesStarved: nat
    const readExpire: nat
    const writeExpire: nat
    var issued: seq<nat>
    var merged: seq<nat>

    constructor (fifoBatch: nat, writesStarved: nat, readExpire: nat, writeExpire: nat, now: int)
      ensures I.Inv(View(), None, None)
    {
      this.info, this.readLane, this.writeLane := map[], Lane([], [], None), Lane([], [], None);
      this.batching, this.starved, this.lastSector, this.now := 0, 0, 0, now;
      this.fifoBatch, this.writesStarved, this.readExpire, this.writeExpire := fifoBatch, writesStarved, readExpire, writeExpire;
      this.issued, this.merged := [], [];
    }

    ghost function View(): State
      reads this
    {
      State(info, readLane, writeLane, batching, starved, lastSector, now,
            fifoBatch, writesStarved, readExpire, writeExpire, issued, merged)
    }

    method SetLane(d: Dir, l: Lane)
      modifies this`readLane, this`writeLane
      ensures View() == WithLane(old(View()), d, l)
    {
      if d == Read { readLane := l; } else { writeLane := l; }
    }

    /** Moves a request to the dispatch queue. */
    method MoveRequest(x: nat)
      requires x in info
      modifies this`readLane, this`writeLane, this`lastSector, this`issued
      ensures View() == DeadlineModel.MoveRequest(old(View()), x)
    {
      hide Removing, Latter;
      var d := info[x].dir;
      var sort := if d == Read then readLane.sort else writeLane.sort;
      readLane, writeLane := readLane.(next := None), writeLane.(next := None);
      var l := (if d == Read then readLane else writeLane).(next := Latter(sort, x));
      lastSector := info[x].pos + info[x].sectors;
      SetLane(d, Removing(l, x));
      issued := issued + [x];
    }

    /** Puts a request into the sector order; one already at its sector is dispatched first. */
    method AddSorted(x: nat)
      requires x in info && (I.Inv(View(), Some(x), None) || I.Inv(View(), Some(x), Some(x)))
      modifies this`readLane, this`writeLane, this`lastSector, this`issued
      ensures View() == Sorted(old(View()), x)
    {
      hide I.Inv, DeadlineModel.MoveRequest, PutAt, PlaceFor;
      var d, pos := info[x].dir, info[x].pos;
      ghost var entering := if I.Inv(View(), Some(x), None) then None else Some(x);
      var alias := AliasOf(info, if d == Read then readLane.sort else writeLane.sort, pos);
      while alias.Some?
        invariant info == old(info) && I.Inv(View(), Some(x), entering)
        invariant alias == AliasOf(info, LaneOf(View(), d).sort, pos)
        invariant Cleared(View(), d, pos) == Cleared(old(View()), d, pos)
        decreases |LaneOf(View(), d).sort|
      {
        var a := alias.value;
        AliasFacts(View(), Some(x), entering, d, a);
        I.MoveKeeps(View(), Some(x), entering, a);
        I.MoveFrame(View(), a);
        MoveRequest(a);
        alias := AliasOf(info, if d == Read then readLane.sort else writeLane.sort, pos);
      }
      var l := if d == Read then readLane else writeLane;
      SetLane(d, l.(sort := PutAt(l.sort, PlaceFor(info, l.sort, pos), x)));
    }

    /** A new request: into both indexes. */
    method AddRequest(x: nat, i: Info)
      requires I.Inv(View(), None, None) && x !in info
      modifies this
      ensures View() == Add(old(View()), x, i) && I.Inv(View(), None, None)
    {
      hide I.Inv, Sorted;
      I.AddKeeps(View(), x, i);
      I.Started(View(), x, i);
      info := info[x := i];
      AddSorted(x);
      var l := if i.dir == Read then readLane else writeLane;
      info := info[x := i.(time := now + if i.dir == Read then readExpire else writeExpire)];
      SetLane(i.dir, l.(fifo := l.fifo + [x]));
    }

    /** A request has grown at the front: to its new place in the sector order. */
    method MergedRequest(x: nat, pos: nat, sectors: nat)
      requires I.Inv(View(), None, None) && x in info && x in LaneOf(View(), info[x].dir).sort
      modifies this
      ensures View() == FrontMerged(old(View()), x, pos, sectors) && I.Inv(View(), None, None)
    {
      hide I.Inv, Sorted, Removed;
      I.FrontMergedKeeps(View(), x, pos, sectors);
      I.FrontOff(View(), x, pos, sectors);
      var d := info[x].dir;
      var l := if d == Read then readLane else writeLane;
      SetLane(d, l.(sort := Removed(l.sort, x)));
      info := info[x := info[x].(pos := pos, sectors := sectors)];
      AddSorted(x);
    }

    /** One request takes over another's data, and its place and deadline if earlier. */
    method MergedRequests(x: nat, gone: nat)
      requires I.Inv(View(), None, None) && x in info && gone in info && x != gone && info[x].dir == info[gone].dir
      requires x in LaneOf(View(), info[x].dir).sort && gone in LaneOf(View(), info[x].dir).sort
      modifies this
      ensures View() == DeadlineModel.MergedRequests(old(View()), x, gone) && I.Inv(View(), None, None)
    {
      hide I.Inv, Removed, Removing, PutAt;
      I.MergedRequestsKeeps(View(), x, gone);
      var d := info[gone].dir;
      var l := if d == Read then readLane else writeLane;
      if x in l.fifo && gone in l.fifo && info[gone].time < info[x].time {
        var rest := Removed(l.fifo, x);
        if gone in rest {
          l := l.(fifo := PutAt(rest, IndexOf(rest, gone) + 1, x));
          info := info[x := info[x].(time := info[gone].time)];
        }
      }
      SetLane(d, Removing(l, gone));
      merged := merged + [gone];
    }

    /** Dispatches the next request, if there is one. */
    method DispatchRequests() returns (rq: Option<nat>)
      requires I.Inv(View(), None, None)
      modifies this
      ensures (View(), rq) == Dispatch(old(View())) && I.Inv(View(), None, None)
    {
      hide I.Inv, DeadlineModel.MoveRequest;
      I.DispatchKeeps(View());
      var p := Choice();
      if p.rq.None? {
        return None;
      }
      I.SelectQueued(View());
      batching, starved := p.batching, p.starved;
      MoveRequest(p.rq.value);
      return p.rq;
    }

    /** Whether to go on with a batch, and else which direction starts one with what. */
    method Choice() returns (p: Pick)
      ensures p == Select(View())
    {
      var going := if writeLane.next.Some? then writeLane.next else readLane.next;
      if going.Some? && batching < fifoBatch {
        return Pick(going, batching + 1, starved);
      }
      var hungry := starved;
      var d := Write;
      if readLane.fifo != [] {
        d := Read;
        if writeLane.fifo != [] {
          hungry := starved + 1;
          if starved >= writesStarved {
            d, hungry := Write, 0;
          }
        }
      } else if writeLane.fifo != [] {
        hungry := 0;
      } else {
        return Pick(None, batching, starved);
      }
      var l := if d == Read then readLane else writeLane;
      var oldest := l.fifo[0];
      if l.next.None? || now > TimeOf(info, oldest) {
        return Pick(Some(oldest), 1, hungry);
      }
      return Pick(l.next, 1, hungry);
    }
  }

  lemma AliasFacts(s: State, out: Option<nat>, entering: Option<nat>, d: Dir, a: nat)
    requires I.Inv(s, out, entering) && a in LaneOf(s, d).sort
    ensures a in s.info && s.info[a].dir == d
  {
    I.SortFacts(s.info, d, LaneOf(s, d), s.now + Expire(s, d), out, a);
  }
}
