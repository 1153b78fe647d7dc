/** What every operation of the deadline scheduler keeps: both indexes of a direction hold the
    same requests, each in its order, and no request is lost or held twice. */
module DeadlineInvariant {
  import opened Requests
  import opened IdLists
  import opened DeadlineModel

  ghost predicate BySector(info: map<nat, Info>, s: seq<nat>) {
    forall i, j :: 0 <= i < j < |s| ==> PosOf(info, s[i]) < PosOf(info, s[j])
  }

  ghost predicate ByTime(info: map<nat, Info>, s: seq<nat>) {
    forall i, j :: 0 <= i < j < |s| ==> TimeOf(info, s[i]) <= TimeOf(info, s[j])
  }

  // ----- Lists -----------------------------------------------------------------------

  lemma RemovedMembers(s: seq<nat>, x: nat)
    requires Unique(s)
    ensures Unique(Removed(s, x))
    ensures forall y :: y in Removed(s, x) <==> y in s && y != x
  {
    hide Unique, DropAt;
    if x in s {
      DropMembers(s, IndexOf(s, x));
    }
  }

  lemma RemovedBySector(info: map<nat, Info>, s: seq<nat>, x: nat)
    requires BySector(info, s)
    ensures BySector(info, Removed(s, x))
  {
    if x in s {
      var k := IndexOf(s, x);
      var r := DropAt(s, k);
      forall i, j | 0 <= i < j < |r| ensures PosOf(info, r[i]) < PosOf(info, r[j]) {
        DropIndex(s, k, i);
        DropIndex(s, k, j);
      }
    }
  }

  lemma RemovedByTime(info: map<nat, Info>, s: seq<nat>, x: nat)
    requires ByTime(info, s)
    ensures ByTime(info, Removed(s, x))
  {
    if x in s {
      var k := IndexOf(s, x);
      var r := DropAt(s, k);
      forall i, j | 0 <= i < j < |r| ensures TimeOf(info, r[i]) <= TimeOf(info, r[j]) {
        DropIndex(s, k, i);
        DropIndex(s, k, j);
      }
    }
  }

  lemma LatterIn(s: seq<nat>, x: nat)
    requires Unique(s)
    ensures Latter(s, x).Some? ==> Latter(s, x).value in s && Latter(s, x).value != x
  {
  }

  /** The place for a sector no request starts at keeps the order. */
  lemma {:induction false} PlaceIsRight(info: map<nat, Info>, s: seq<nat>, pos: nat)
    requires BySector(info, s) && forall x :: x in s ==> PosOf(info, x) != pos
    ensures var k := PlaceFor(info, s, pos);
            && (forall i :: 0 <= i < k ==> PosOf(info, s[i]) < pos)
            && (forall i :: k <= i < |s| ==> PosOf(info, s[i]) > pos)
  {
    if s != [] && PosOf(info, s[0]) <= pos {
      PlaceIsRight(info, s[1..], pos);
      var k := PlaceFor(info, s, pos);
      forall i | 0 <= i < |s| ensures if i < k then PosOf(info, s[i]) < pos else PosOf(info, s[i]) > pos {
        if i > 0 {
          assert s[1..][i - 1] == s[i];
        }
      }
    } else if s != [] {
      forall i | 0 <= i < |s| ensures PosOf(info, s[i]) > pos {
        assert i > 0 ==> PosOf(info, s[0]) < PosOf(info, s[i]);
      }
    }
  }

  lemma PutBySector(info: map<nat, Info>, s: seq<nat>, x: nat)
    requires BySector(info, s) && x in info && forall y :: y in s ==> PosOf(info, y) != info[x].pos
    ensures BySector(info, PutAt(s, PlaceFor(info, s, info[x].pos), x))
  {
    var k := PlaceFor(info, s, info[x].pos);
    PlaceIsRight(info, s, info[x].pos);
    var r := PutAt(s, k, x);
    forall i, j | 0 <= i < j < |r| ensures PosOf(info, r[i]) < PosOf(info, r[j]) {
      PutIndex(s, k, x, i);
      PutIndex(s, k, x, j);
    }
  }

  // ----- The invariant ---------------------------------------------------------------

  /** One direction.  `out` is a request that is just being put into the sector order. */
  ghost predicate LaneOk(info: map<nat, Info>, d: Dir, l: Lane, limit: int, out: Option<nat>) {
    && Unique(l.sort) && Unique(l.fifo)
    && (forall x :: Some(x) != out ==> (x in l.sort <==> x in l.fifo))
    && (out.Some? ==> out.value !in l.sort)
    && (forall x :: x in l.sort || x in l.fifo ==> x in info && info[x].dir == d)
    && BySector(info, l.sort) && ByTime(info, l.fifo)
    && (forall x :: x in l.fifo ==> TimeOf(info, x) <= limit)
    && (l.next.Some? ==> l.next.value in l.fifo)
  }

  function Held(x: nat, s: seq<nat>): nat { if x in s then 1 else 0 }

  /** Every request known is in exactly one place: queued, dispatched or merged away; but
      for `entering`, which is just being added. */
  ghost predicate PlacesOk(info: map<nat, Info>, rd: seq<nat>, wr: seq<nat>, issued: seq<nat>, merged: seq<nat>,
                           entering: Option<nat>)
  {
    && (forall x :: x in info ==> Held(x, rd) + Held(x, wr) + Held(x, issued) + Held(x, merged) == if Some(x) == entering then 0 else 1)
    && (forall x :: x in issued || x in merged ==> x in info)
    && Unique(issued) && Unique(merged)
  }

  ghost predicate LanesOk(s: State, out: Option<nat>) {
    && LaneOk(s.info, Read, s.readLane, s.now + s.readExpire, out)
    && LaneOk(s.info, Write, s.writeLane, s.now + s.writeExpire, out)
    && !(s.readLane.next.Some? && s.writeLane.next.Some?)
  }

  ghost predicate Inv(s: State, out: Option<nat>, entering: Option<nat>) {
    && LanesOk(s, out)
    && PlacesOk(s.info, s.readLane.fifo, s.writeLane.fifo, s.issued, s.merged, entering)
    && (entering.Some? ==> entering == out)
  }

  // ----- Moving to dispatch ----------------------------------------------------------

  lemma RemovingKeeps(info: map<nat, Info>, d: Dir, l: Lane, limit: int, out: Option<nat>, x: nat)
    requires LaneOk(info, d, l, limit, out) && Some(x) != out && l.next != Some(x)
    ensures LaneOk(info, d, Removing(l, x), limit, out)
  {
    hide BySector, ByTime, Unique;
    RemovedMembers(l.sort, x);
    RemovedMembers(l.fifo, x);
    RemovedBySector(info, l.sort, x);
    RemovedByTime(info, l.fifo, x);
  }

  /** The next request may be set to any in the sector order, or to none. */
  lemma NextKeeps(info: map<nat, Info>, d: Dir, l: Lane, limit: int, out: Option<nat>, next: Option<nat>)
    requires LaneOk(info, d, l, limit, out) && (next.Some? ==> next.value in l.sort)
    ensures LaneOk(info, d, l.(next := next), limit, out)
  {
    hide BySector, ByTime, Unique;
  }

  lemma MoveKeepsLanes(s: State, out: Option<nat>, x: nat)
    requires LanesOk(s, out) && x in s.info && x in LaneOf(s, s.info[x].dir).sort
    ensures LanesOk(MoveRequest(s, x), out)
  {
    hide LaneOk, Removing, Latter;
    var d := s.info[x].dir;
    var l, o := LaneOf(s, d), LaneOf(s, Other(d));
    SortFacts(s.info, d, l, s.now + Expire(s, d), out, x);
    NextKeeps(s.info, d, l, s.now + Expire(s, d), out, Latter(l.sort, x));
    RemovingKeeps(s.info, d, l.(next := Latter(l.sort, x)), s.now + Expire(s, d), out, x);
    NextKeeps(s.info, Other(d), o, s.now + Expire(s, Other(d)), out, None);
  }

  lemma SortFacts(info: map<nat, Info>, d: Dir, l: Lane, limit: int, out: Option<nat>, x: nat)
    requires LaneOk(info, d, l, limit, out) && x in l.sort
    ensures Some(x) != out && x in l.fifo && x in info && info[x].dir == d
    ensures Latter(l.sort, x).Some? ==> Latter(l.sort, x).value in l.sort && Latter(l.sort, x).value != x
  {
    hide BySector, ByTime;
    LatterIn(l.sort, x);
  }

  lemma MovePlaces(info: map<nat, Info>, rd: seq<nat>, wr: seq<nat>, issued: seq<nat>, merged: seq<nat>, entering: Option<nat>,
                   d: Dir, x: nat)
    requires PlacesOk(info, rd, wr, issued, merged, entering) && x in info && Some(x) != entering
    requires Unique(rd) && Unique(wr) && x in (if d == Read then rd else wr)
    ensures PlacesOk(info, if d == Read then Removed(rd, x) else rd, if d == Write then Removed(wr, x) else wr,
                     issued + [x], merged, entering)
    ensures PlacesOk(info, if d == Read then Removed(rd, x) else rd, if d == Write then Removed(wr, x) else wr,
                     issued, merged + [x], entering)
  {
    hide Removed;
    RemovedMembers(rd, x);
    RemovedMembers(wr, x);
    assert x !in issued && x !in merged;
  }

  lemma MoveKeeps(s: State, out: Option<nat>, entering: Option<nat>, x: nat)
    requires Inv(s, out, entering) && x in s.info && x in LaneOf(s, s.info[x].dir).sort
    ensures Inv(MoveRequest(s, x), out, entering)
  {
    var d := s.info[x].dir;
    SortFacts(s.info, d, LaneOf(s, d), s.now + Expire(s, d), out, x);
    assert Unique(s.readLane.fifo) && Unique(s.writeLane.fifo);
    hide LaneOk, PlacesOk, LanesOk, Latter, Unique;
    MoveKeepsLanes(s, out, x);
    MovePlaces(s.info, s.readLane.fifo, s.writeLane.fifo, s.issued, s.merged, entering, d, x);
  }

  // ----- Making way, and sorting in --------------------------------------------------

  /** Making way for a sector moves only requests of that direction, and none is left there. */
  lemma {:induction false} ClearedKeeps(s: State, out: Option<nat>, entering: Option<nat>, d: Dir, pos: nat)
    requires Inv(s, out, entering)
    ensures var c := Cleared(s, d, pos);
            && Inv(c, out, entering) && c.info == s.info && c.now == s.now && Tunables(c, s)
            && (forall y :: y in LaneOf(c, d).sort ==> PosOf(c.info, y) != pos)
            && (out.Some? && out.value in LaneOf(s, d).fifo ==> out.value in LaneOf(c, d).fifo)
    decreases |LaneOf(s, d).sort|
  {
    var l := LaneOf(s, d);
    var a := AliasOf(s.info, l.sort, pos);
    if a.Some? {
      SortFacts(s.info, d, l, s.now + Expire(s, d), out, a.value);
      MoveKeeps(s, out, entering, a.value);
      MoveFrame(s, a.value);
      assert Unique(l.fifo);
      hide Inv, MoveRequest, Unique;
      RemovedMembers(l.fifo, a.value);
      ClearedKeeps(MoveRequest(s, a.value), out, entering, d, pos);
    } else {
      hide Inv;
    }
  }

  ghost predicate Tunables(s: State, t: State) {
    && s.fifoBatch == t.fifoBatch && s.writesStarved == t.writesStarved
    && s.readExpire == t.readExpire && s.writeExpire == t.writeExpire
    && s.batching == t.batching && s.starved == t.starved
  }

  lemma MoveFrame(s: State, x: nat)
    requires x in s.info && x in LaneOf(s, s.info[x].dir).sort
    ensures var t := MoveRequest(s, x); var d := s.info[x].dir;
            && t.info == s.info && t.now == s.now && Tunables(t, s)
            && LaneOf(t, d).fifo == Removed(LaneOf(s, d).fifo, x)
            && |LaneOf(t, d).sort| < |LaneOf(s, d).sort|
            && LaneOf(t, Other(d)).fifo == LaneOf(s, Other(d)).fifo
  {
  }

  /** A request put into the sector order, at a sector that is free. */
  lemma SortLane(info: map<nat, Info>, d: Dir, l: Lane, limit: int, x: nat)
    requires LaneOk(info, d, l, limit, Some(x)) && x in info && info[x].dir == d && x in l.fifo
    requires forall y :: y in l.sort ==> PosOf(info, y) != info[x].pos
    ensures LaneOk(info, d, l.(sort := PutAt(l.sort, PlaceFor(info, l.sort, info[x].pos), x)), limit, None)
  {
    hide BySector, ByTime, Unique, PutAt;
    PutMembers(l.sort, PlaceFor(info, l.sort, info[x].pos), x);
    PutBySector(info, l.sort, x);
  }

  lemma OtherLane(info: map<nat, Info>, d: Dir, l: Lane, limit: int, x: nat)
    requires LaneOk(info, d, l, limit, Some(x)) && x in info && info[x].dir != d
    ensures LaneOk(info, d, l, limit, None)
  {
    hide BySector, ByTime, Unique;
    assert x !in l.sort && x !in l.fifo;
  }

  lemma SortedKeeps(s: State, x: nat)
    requires Inv(s, Some(x), None) && x in s.info && x in LaneOf(s, s.info[x].dir).fifo
    ensures Inv(Sorted(s, x), None, None)
  {
    hide LaneOk, PlacesOk, Cleared, PutAt, PlaceFor;
    var d, pos := s.info[x].dir, s.info[x].pos;
    ClearedKeeps(s, Some(x), None, d, pos);
    var c := Cleared(s, d, pos);
    SortLane(c.info, d, LaneOf(c, d), c.now + Expire(c, d), x);
    OtherLane(c.info, Other(d), LaneOf(c, Other(d)), c.now + Expire(c, Other(d)), x);
  }

  // ----- Front merges ----------------------------------------------------------------

  /** Facts about other requests do not matter to a lane. */
  lemma InfoFrame(info: map<nat, Info>, info': map<nat, Info>, d: Dir, l: Lane, limit: int, out: Option<nat>)
    requires LaneOk(info, d, l, limit, out)
    requires forall y :: y in l.sort || y in l.fifo ==> y in info' && info'[y].dir == d && info'[y].time == info[y].time
    requires forall y :: y in l.sort ==> info'[y].pos == info[y].pos
    ensures LaneOk(info', d, l, limit, out)
  {
  }

  lemma OffSort(info: map<nat, Info>, d: Dir, l: Lane, limit: int, x: nat)
    requires LaneOk(info, d, l, limit, None) && x in l.sort
    ensures LaneOk(info, d, l.(sort := Removed(l.sort, x)), limit, Some(x))
    ensures x in l.fifo && x !in Removed(l.sort, x)
  {
    hide BySector, ByTime, Unique;
    RemovedMembers(l.sort, x);
    RemovedBySector(info, l.sort, x);
  }

  /** The request off the sector order, with its new sector. */
  lemma FrontLane(info: map<nat, Info>, d: Dir, l: Lane, limit: int, x: nat, i: Info)
    requires LaneOk(info, d, l, limit, None) && x in l.sort && x in info && i.dir == d && i.time == info[x].time
    ensures LaneOk(info[x := i], d, l.(sort := Removed(l.sort, x)), limit, Some(x)) && x in l.fifo
  {
    OffSort(info, d, l, limit, x);
    InfoFrame(info, info[x := i], d, l.(sort := Removed(l.sort, x)), limit, Some(x));
  }

  lemma FarLane(info: map<nat, Info>, d: Dir, l: Lane, limit: int, x: nat, i: Info)
    requires LaneOk(info, d, l, limit, None) && x in info && info[x].dir != d
    ensures LaneOk(info[x := i], d, l, limit, Some(x))
  {
    OtherOut(info, d, l, limit, x);
    InfoFrame(info, info[x := i], d, l, limit, Some(x));
  }

  lemma FrontOff(s: State, x: nat, pos: nat, sectors: nat)
    requires Inv(s, None, None) && x in s.info && x in LaneOf(s, s.info[x].dir).sort
    ensures var d := s.info[x].dir; var l := LaneOf(s, d);
            var off := WithLane(s, d, l.(sort := Removed(l.sort, x))).(info := s.info[x := s.info[x].(pos := pos, sectors := sectors)]);
            Inv(off, Some(x), None) && x in LaneOf(off, d).fifo
  {
    hide LaneOk, Removed, PlacesOk;
    var d, i := s.info[x].dir, s.info[x].(pos := pos, sectors := sectors);
    FrontLane(s.info, d, LaneOf(s, d), s.now + Expire(s, d), x, i);
    FarLane(s.info, Other(d), LaneOf(s, Other(d)), s.now + Expire(s, Other(d)), x, i);
    SamePlaces(s.info, s.info[x := i], s.readLane.fifo, s.writeLane.fifo, s.issued, s.merged, None);
  }

  lemma OtherOut(info: map<nat, Info>, d: Dir, l: Lane, limit: int, x: nat)
    requires LaneOk(info, d, l, limit, None) && x in info && info[x].dir != d
    ensures LaneOk(info, d, l, limit, Some(x)) && x !in l.sort && x !in l.fifo
  {
    hide BySector, ByTime, Unique;
  }

  lemma SamePlaces(info: map<nat, Info>, info': map<nat, Info>, rd: seq<nat>, wr: seq<nat>, issued: seq<nat>, merged: seq<nat>,
                   entering: Option<nat>)
    requires PlacesOk(info, rd, wr, issued, merged, entering) && info'.Keys == info.Keys
    ensures PlacesOk(info', rd, wr, issued, merged, entering)
  {
    hide Unique;
    forall x | x in info'
      ensures Held(x, rd) + Held(x, wr) + Held(x, issued) + Held(x, merged) == if Some(x) == entering then 0 else 1
    {
      assert x in info.Keys;
    }
    forall x | x in issued || x in merged ensures x in info' {
      assert x in info && x in info.Keys;
    }
  }

  lemma FrontMergedKeeps(s: State, x: nat, pos: nat, sectors: nat)
    requires Inv(s, None, None) && x in s.info && x in LaneOf(s, s.info[x].dir).sort
    ensures Inv(FrontMerged(s, x, pos, sectors), None, None)
  {
    hide Inv, Sorted, Removed;
    var d := s.info[x].dir;
    var l := LaneOf(s, d);
    FrontOff(s, x, pos, sectors);
    SortedKeeps(WithLane(s, d, l.(sort := Removed(l.sort, x))).(info := s.info[x := s.info[x].(pos := pos, sectors := sectors)]), x);
  }

  // ----- New requests ----------------------------------------------------------------

  lemma NewLane(info: map<nat, Info>, d: Dir, l: Lane, limit: int, x: nat, i: Info)
    requires LaneOk(info, d, l, limit, None) && x !in info
    ensures LaneOk(info[x := i], d, l, limit, Some(x)) && x !in l.sort && x !in l.fifo
  {
    assert x !in l.sort && x !in l.fifo;
    assert LaneOk(info, d, l, limit, Some(x));
    hide BySector, ByTime, Unique;
    InfoFrame(info, info[x := i], d, l, limit, Some(x));
  }

  lemma NewPlaces(info: map<nat, Info>, rd: seq<nat>, wr: seq<nat>, issued: seq<nat>, merged: seq<nat>, x: nat, i: Info)
    requires PlacesOk(info, rd, wr, issued, merged, None) && x !in info && x !in rd && x !in wr
    ensures PlacesOk(info[x := i], rd, wr, issued, merged, Some(x))
  {
    hide Unique;
  }

  lemma Started(s: State, x: nat, i: Info)
    requires Inv(s, None, None) && x !in s.info
    ensures Inv(s.(info := s.info[x := i]), Some(x), Some(x))
  {
    hide LaneOk, PlacesOk;
    NewLane(s.info, Read, s.readLane, s.now + s.readExpire, x, i);
    NewLane(s.info, Write, s.writeLane, s.now + s.writeExpire, x, i);
    NewPlaces(s.info, s.readLane.fifo, s.writeLane.fifo, s.issued, s.merged, x, i);
  }

  /** A new request on both indexes: at its sector, and last to expire. */
  lemma AddLane(info: map<nat, Info>, d: Dir, l: Lane, limit: int, x: nat)
    requires LaneOk(info, d, l, limit, Some(x)) && x in info && info[x].dir == d && x !in l.fifo
    requires forall y :: y in l.sort ==> PosOf(info, y) != info[x].pos
    ensures LaneOk(info[x := info[x].(time := limit)], d,
                   l.(sort := PutAt(l.sort, PlaceFor(info, l.sort, info[x].pos), x), fifo := l.fifo + [x]), limit, None)
  {
    hide BySector, ByTime, Unique, PutAt;
    var k := PlaceFor(info, l.sort, info[x].pos);
    var info' := info[x := info[x].(time := limit)];
    PutMembers(l.sort, k, x);
    PutBySector(info, l.sort, x);
    AppendByTime(info, l.fifo, x, limit);
    SameSectors(info, info', PutAt(l.sort, k, x));
  }

  lemma SameSectors(info: map<nat, Info>, info': map<nat, Info>, s: seq<nat>)
    requires BySector(info, s) && forall y :: PosOf(info', y) == PosOf(info, y)
    ensures BySector(info', s)
  {
  }

  lemma AppendByTime(info: map<nat, Info>, s: seq<nat>, x: nat, limit: int)
    requires ByTime(info, s) && Unique(s) && x in info && x !in s && forall y :: y in s ==> TimeOf(info, y) <= limit
    ensures ByTime(info[x := info[x].(time := limit)], s + [x]) && Unique(s + [x])
  {
  }

  lemma AddKeeps(s: State, x: nat, i: Info)
    requires Inv(s, None, None) && x !in s.info
    ensures Inv(Add(s, x, i), None, None)
  {
    hide LaneOk, PlacesOk, Cleared, PutAt, PlaceFor;
    var s1 := s.(info := s.info[x := i]);
    Started(s, x, i);
    ClearedKeeps(s1, Some(x), Some(x), i.dir, i.pos);
    var c := Cleared(s1, i.dir, i.pos);
    NotHeld(c, x);
    AddLane(c.info, i.dir, LaneOf(c, i.dir), c.now + Expire(c, i.dir), x);
    OtherLane(c.info, Other(i.dir), LaneOf(c, Other(i.dir)), c.now + Expire(c, Other(i.dir)), x);
    var info := c.info[x := i.(time := c.now + Expire(c, i.dir))];
    LaterInfo(c.info, info, Other(i.dir), LaneOf(c, Other(i.dir)), c.now + Expire(c, Other(i.dir)), x);
    AddPlaces(c.info, info, c.readLane.fifo, c.writeLane.fifo, c.issued, c.merged, i.dir, x);
  }

  lemma LaterInfo(info: map<nat, Info>, info': map<nat, Info>, d: Dir, l: Lane, limit: int, x: nat)
    requires LaneOk(info, d, l, limit, None) && x in info && info[x].dir != d && x in info' && info' == info[x := info'[x]]
    ensures LaneOk(info', d, l, limit, None)
  {
    assert x !in l.sort && x !in l.fifo;
    hide BySector, ByTime, Unique;
    InfoFrame(info, info', d, l, limit, None);
  }

  lemma NotHeld(s: State, x: nat)
    requires Inv(s, Some(x), Some(x)) && x in s.info
    ensures x !in s.readLane.fifo && x !in s.writeLane.fifo
  {
    hide LaneOk;
    assert Held(x, s.readLane.fifo) + Held(x, s.writeLane.fifo) + Held(x, s.issued) + Held(x, s.merged) == 0;
  }

  lemma AddPlaces(info: map<nat, Info>, info': map<nat, Info>, rd: seq<nat>, wr: seq<nat>, issued: seq<nat>, merged: seq<nat>,
                  d: Dir, x: nat)
    requires PlacesOk(info, rd, wr, issued, merged, Some(x)) && info'.Keys == info.Keys && x in info
    ensures PlacesOk(info', if d == Read then rd + [x] else rd, if d == Write then wr + [x] else wr, issued, merged, None)
  {
    hide Unique;
    SamePlaces(info, info', rd, wr, issued, merged, Some(x));
  }

  // ----- Merges of requests ----------------------------------------------------------

  lemma PutByTime(info: map<nat, Info>, s: seq<nat>, k: nat, x: nat)
    requires ByTime(info, s) && 0 < k <= |s| && TimeOf(info, x) == TimeOf(info, s[k - 1])
    ensures ByTime(info, PutAt(s, k, x))
  {
    var r := PutAt(s, k, x);
    forall i, j | 0 <= i < j < |r| ensures TimeOf(info, r[i]) <= TimeOf(info, r[j]) {
      PutIndex(s, k, x, i);
      PutIndex(s, k, x, j);
    }
  }

  lemma SameTimes(info: map<nat, Info>, info': map<nat, Info>, s: seq<nat>)
    requires ByTime(info, s) && forall y :: y in s ==> TimeOf(info', y) == TimeOf(info, y)
    ensures ByTime(info', s)
  {
  }

  /** A request that takes over an earlier one's deadline takes over its place too. */
  lemma TakeOver(info: map<nat, Info>, d: Dir, l: Lane, limit: int, x: nat, gone: nat)
    requires LaneOk(info, d, l, limit, None) && x in l.fifo && gone in l.fifo && x != gone
    ensures var rest := Removed(l.fifo, x);
            && gone in rest && x in info && gone in info
            && LaneOk(info[x := info[x].(time := info[gone].time)], d,
                      l.(fifo := PutAt(rest, IndexOf(rest, gone) + 1, x)), limit, None)
  {
    hide BySector, ByTime, Unique, PutAt, Removed;
    var rest := Removed(l.fifo, x);
    RemovedMembers(l.fifo, x);
    RemovedByTime(info, l.fifo, x);
    var info' := info[x := info[x].(time := info[gone].time)];
    var k := IndexOf(rest, gone) + 1;
    SameTimes(info, info', rest);
    PutByTime(info', rest, k, x);
    PutMembers(rest, k, x);
    SameSectors(info, info', l.sort);
  }

  /** The lane and the facts once a request has taken over another's deadline, or not. */
  function Took(s: State, x: nat, gone: nat): (map<nat, Info>, Lane)
    requires x in s.info && gone in s.info
  {
    var l := LaneOf(s, s.info[gone].dir);
    var rest := Removed(l.fifo, x);
    if x in l.fifo && gone in l.fifo && s.info[gone].time < s.info[x].time && gone in rest
    then (s.info[x := s.info[x].(time := s.info[gone].time)], l.(fifo := PutAt(rest, IndexOf(rest, gone) + 1, x)))
    else (s.info, l)
  }

  lemma MergedIs(s: State, x: nat, gone: nat)
    requires x in s.info && gone in s.info
    ensures var (info, l) := Took(s, x, gone);
            MergedRequests(s, x, gone) ==
              WithLane(s, s.info[gone].dir, Removing(l, gone)).(info := info, merged := s.merged + [gone])
  {
    hide Removed, PutAt, Removing;
  }

  lemma TookKeeps(s: State, x: nat, gone: nat)
    requires LanesOk(s, None) && x in s.info && gone in s.info && x != gone && s.info[x].dir == s.info[gone].dir
    requires x in LaneOf(s, s.info[x].dir).fifo && gone in LaneOf(s, s.info[x].dir).fifo
    ensures var (info, l) := Took(s, x, gone); var d := s.info[gone].dir;
            && LaneOk(info, d, l, s.now + Expire(s, d), None)
            && LaneOk(info, Other(d), LaneOf(s, Other(d)), s.now + Expire(s, Other(d)), None)
            && info.Keys == s.info.Keys && l.next == LaneOf(s, d).next && l.sort == LaneOf(s, d).sort
            && (forall y :: y in l.fifo <==> y in LaneOf(s, d).fifo)
  {
    hide LaneOk, Removed, PutAt;
    var d := s.info[gone].dir;
    var l, o := LaneOf(s, d), LaneOf(s, Other(d));
    var (info, l') := Took(s, x, gone);
    if info != s.info {
      TakeOver(s.info, d, l, s.now + Expire(s, d), x, gone);
      LaterInfo(s.info, info, Other(d), o, s.now + Expire(s, Other(d)), x);
      SameMembers(s.info, info, d, l, l', s.now + Expire(s, d));
    }
  }

  lemma SameMembers(info: map<nat, Info>, info': map<nat, Info>, d: Dir, l: Lane, l': Lane, limit: int)
    requires LaneOk(info, d, l, limit, None) && LaneOk(info', d, l', limit, None) && l.sort == l'.sort
    ensures forall y :: y in l'.fifo <==> y in l.fifo
  {
    hide BySector, ByTime, Unique;
    forall y ensures y in l'.fifo <==> y in l.fifo {
      assert y in l.sort <==> y in l.fifo;
      assert y in l'.sort <==> y in l'.fifo;
    }
  }

  /** Taking a request off both indexes, the next one included. */
  lemma RemovingAny(info: map<nat, Info>, d: Dir, l: Lane, limit: int, x: nat)
    requires LaneOk(info, d, l, limit, None) && x in l.sort
    ensures LaneOk(info, d, Removing(l, x), limit, None) && (Removing(l, x).next.Some? ==> l.next.Some?)
  {
    hide LaneOk, Latter, Removed;
    SortFacts(info, d, l, limit, None, x);
    if l.next == Some(x) {
      NextKeeps(info, d, l, limit, None, Latter(l.sort, x));
      RemovingKeeps(info, d, l.(next := Latter(l.sort, x)), limit, None, x);
      assert Removing(l, x) == Removing(l.(next := Latter(l.sort, x)), x);
    } else {
      RemovingKeeps(info, d, l, limit, None, x);
    }
  }

  lemma PlacesMembers(info: map<nat, Info>, rd: seq<nat>, wr: seq<nat>, rd': seq<nat>, wr': seq<nat>,
                      issued: seq<nat>, merged: seq<nat>)
    requires PlacesOk(info, rd, wr, issued, merged, None)
    requires (forall y :: y in rd' <==> y in rd) && forall y :: y in wr' <==> y in wr
    ensures PlacesOk(info, rd', wr', issued, merged, None)
  {
    hide Unique;
  }

  lemma LaneUnique(info: map<nat, Info>, d: Dir, l: Lane, limit: int)
    requires LaneOk(info, d, l, limit, None)
    ensures Unique(l.fifo)
  {
  }

  lemma MergedPlaces(s: State, x: nat, gone: nat)
    requires Inv(s, None, None) && x in s.info && gone in s.info && x != gone && s.info[x].dir == s.info[gone].dir
    requires x in LaneOf(s, s.info[x].dir).sort && gone in LaneOf(s, s.info[x].dir).sort
    ensures var t := MergedRequests(s, x, gone);
            PlacesOk(t.info, t.readLane.fifo, t.writeLane.fifo, t.issued, t.merged, None)
  {
    hide LaneOk, PlacesOk, Latter, Unique, Took, MergedRequests, Removed;
    var d := s.info[gone].dir;
    var (info, l) := Took(s, x, gone);
    SortFacts(s.info, d, LaneOf(s, d), s.now + Expire(s, d), None, x);
    SortFacts(s.info, d, LaneOf(s, d), s.now + Expire(s, d), None, gone);
    TookKeeps(s, x, gone);
    LaneUnique(info, d, l, s.now + Expire(s, d));
    LaneUnique(s.info, Other(d), LaneOf(s, Other(d)), s.now + Expire(s, Other(d)));
    MergedIs(s, x, gone);
    var s' := WithLane(s, d, l);
    PlacesMembers(s.info, s.readLane.fifo, s.writeLane.fifo, s'.readLane.fifo, s'.writeLane.fifo, s.issued, s.merged);
    SamePlaces(s.info, info, s'.readLane.fifo, s'.writeLane.fifo, s.issued, s.merged, None);
    MovePlaces(info, s'.readLane.fifo, s'.writeLane.fifo, s.issued, s.merged, None, d, gone);
  }

  lemma MergedRequestsKeeps(s: State, x: nat, gone: nat)
    requires Inv(s, None, None) && x in s.info && gone in s.info && x != gone && s.info[x].dir == s.info[gone].dir
    requires x in LaneOf(s, s.info[x].dir).sort && gone in LaneOf(s, s.info[x].dir).sort
    ensures Inv(MergedRequests(s, x, gone), None, None)
  {
    hide LaneOk, PlacesOk, Latter, Took, MergedRequests, Removing;
    var d := s.info[gone].dir;
    var (info, l) := Took(s, x, gone);
    SortFacts(s.info, d, LaneOf(s, d), s.now + Expire(s, d), None, x);
    SortFacts(s.info, d, LaneOf(s, d), s.now + Expire(s, d), None, gone);
    TookKeeps(s, x, gone);
    MergedIs(s, x, gone);
    RemovingAny(info, d, l, s.now + Expire(s, d), gone);
    MergedPlaces(s, x, gone);
  }

  // ----- Dispatch --------------------------------------------------------------------

  /** What is next, or first in the fifo, is in the sector order of its direction. */
  lemma CandidatesQueued(s: State, d: Dir)
    requires Inv(s, None, None)
    ensures var l := LaneOf(s, d);
            && (l.next.Some? ==> l.next.value in s.info && s.info[l.next.value].dir == d && l.next.value in l.sort)
            && (l.fifo != [] ==> l.fifo[0] in s.info && s.info[l.fifo[0]].dir == d && l.fifo[0] in l.sort)
  {
    hide BySector, ByTime, Unique, PlacesOk;
    var l := LaneOf(s, d);
    assert l.fifo != [] ==> l.fifo[0] in l.fifo;
  }

  lemma SelectQueued(s: State)
    requires Inv(s, None, None) && Select(s).rq.Some?
    ensures var x := Select(s).rq.value; x in s.info && x in LaneOf(s, s.info[x].dir).sort
  {
    hide Inv;
    CandidatesQueued(s, Read);
    CandidatesQueued(s, Write);
  }

  lemma DispatchKeeps(s: State)
    requires Inv(s, None, None)
    ensures Inv(Dispatch(s).0, None, None) && Dispatch(s).1 == Select(s).rq
  {
    hide LaneOk, PlacesOk, MoveRequest, Select;
    var p := Select(s);
    if p.rq.Some? {
      SelectQueued(s);
      MoveKeeps(s.(batching := p.batching, starved := p.starved), None, None, p.rq.value);
    }
  }
}
