/** The completion loop, in place: bios leave the request, the current one moves on. */
module CompletionLoop {
  import opened Segments
  import opened Completion

  /** A bio as it is kept: all its pieces, and the index of the first one left. */
  datatype Raw = Raw(id: nat, sector: nat, vecs: seq<Vec>, idx: nat, size: nat, uptodate: bool)

  ghost function Left(b: Raw): Bio
    requires b.idx <= |b.vecs|
  {
    Bio(b.id, b.sector, b.vecs[b.idx..], b.size, b.uptodate)
  }

  ghost predicate Indexed(bios: seq<Raw>) {
    forall i :: 0 <= i < |bios| ==> bios[i].idx <= |bios[i].vecs|
  }

  ghost function AllLeft(bios: seq<Raw>): seq<Bio>
    requires Indexed(bios)
  {
    seq(|bios|, i requires 0 <= i < |bios| => Left(bios[i]))
  }

  /** The current bio and where the walk through its pieces stands: `k` of them taken, `done`
      bytes in all, `n` more to take. */
  ghost predicate Walking(b: Raw, k: nat, done: nat, n: nat) {
    && b.idx + k <= |b.vecs|
    && Size(b.vecs[b.idx..b.idx + k]) == done
    && (k > 0 ==> done + n < b.size)
    && (done + n > 0 ==> Trim(b.vecs[b.idx..], done + n) == Trim(b.vecs[b.idx + k..], n))
  }

  lemma WalkStarts(b: Raw, n: nat)
    requires b.idx <= |b.vecs|
    ensures Walking(b, 0, 0, n)
  {
  }

  lemma WalkInside(b: Raw, k: nat, done: nat, n: nat)
    requires b.idx <= |b.vecs| && Sound(Left(b)) && Walking(b, k, done, n) && done + n < b.size
    ensures b.idx + k < |b.vecs| && b.vecs[b.idx + k].len <= b.size - done
  {
    var p := b.vecs[b.idx..];
    SizeConcat(p[..k], p[k..]);
    assert p[..k] + p[k..] == p && p[..k] == b.vecs[b.idx..b.idx + k];
    if b.idx + k < |b.vecs| {
      SizeFirst(p[k..]);
    }
  }

  lemma WalkOn(b: Raw, k: nat, done: nat, n: nat)
    requires b.idx <= |b.vecs| && Walking(b, k, done, n) && done + n < b.size
    requires b.idx + k < |b.vecs| && b.vecs[b.idx + k].len <= n && (n > 0 || k == 0)
    ensures Walking(b, k + 1, done + b.vecs[b.idx + k].len, n - b.vecs[b.idx + k].len)
  {
    hide Size;
    var i := b.idx + k;
    assert b.vecs[b.idx..i + 1] == b.vecs[b.idx..i] + [b.vecs[i]];
    SizeConcat(b.vecs[b.idx..i], [b.vecs[i]]);
    SizeOne(b.vecs[i]);
    NoPieces();
    assert b.vecs[i..][1..] == b.vecs[i + 1..] && b.vecs[i..][0] == b.vecs[i];
    assert b.vecs[b.idx..][1..] == b.vecs[b.idx + 1..];
    assert n > 0 ==> Trim(b.vecs[i..], n) == Trim(b.vecs[i + 1..], n - b.vecs[i].len);
  }

  /** A bio moved on by `k` pieces and `left` bytes of the next. */
  function Moved(b: Raw, k: nat, left: nat): Raw
    requires b.idx + k < |b.vecs| && left <= b.vecs[b.idx + k].len
  {
    var i := b.idx + k;
    b.(idx := i, vecs := b.vecs[i := Vec(b.vecs[i].phys + left, b.vecs[i].len - left, b.vecs[i].high)])
  }

  /** Stopping the walk leaves the pieces that are left. */
  lemma WalkStops(b: Raw, k: nat, done: nat, n: nat)
    requires b.idx <= |b.vecs| && Walking(b, k, done, n) && done + n > 0
    requires b.idx + k < |b.vecs| && (n == 0 || n < b.vecs[b.idx + k].len)
    ensures Moved(b, k, n).vecs[b.idx + k..] == Trim(b.vecs[b.idx..], done + n)
  {
    hide Size;
    var rest := b.vecs[b.idx + k..];
    assert rest[0] == b.vecs[b.idx + k];
    if n > 0 {
      assert Trim(rest, n) == [Vec(rest[0].phys + n, rest[0].len - n, rest[0].high)] + rest[1..];
    }
  }

  /** What a completion of `n` bytes still has to do: `m` bytes of `bios`, after `events`. */
  ghost predicate Doing(bar: bool, from: seq<Bio>, n: nat, error: int, bios: seq<Bio>, m: nat, events: seq<Ended>) {
    var (left, ended) := Complete(bar, bios, m, error);
    Complete(bar, from, n, error) == (left, events + ended)
  }

  /** What handing back a finished bio reports. */
  function HandedBack(bar: bool, b: Bio, error: int): seq<Ended> {
    if bar then [] else [Ended(b.id, Status(b, error))]
  }

  lemma DoingStarts(bar: bool, from: seq<Bio>, n: nat, error: int)
    ensures Doing(bar, from, n, error, from, n, [])
  {
    assert [] + Complete(bar, from, n, error).1 == Complete(bar, from, n, error).1;
  }

  lemma DoingBio(bar: bool, from: seq<Bio>, n: nat, error: int, bios: seq<Bio>, m: nat, events: seq<Ended>)
    requires Doing(bar, from, n, error, bios, m, events) && bios != [] && bios[0].size <= m
    ensures Doing(bar, from, n, error, bios[1..], m - bios[0].size,
                  events + HandedBack(bar, bios[0], error))
  {
    var more := HandedBack(bar, bios[0], error);
    var ended := Complete(bar, bios[1..], m - bios[0].size, error).1;
    assert events + (more + ended) == (events + more) + ended;
  }

  /** Nothing more to end: the first bio is only partly done, or none is left. */
  lemma DoingEnds(bar: bool, from: seq<Bio>, n: nat, error: int, bios: seq<Bio>, m: nat, events: seq<Ended>)
    requires Doing(bar, from, n, error, bios, m, events) && (bios != [] ==> m < bios[0].size)
    ensures Complete(bar, from, n, error) ==
            (if bios == [] then [] else [Partly(bar, bios[0], m, error)] + bios[1..], events)
  {
    assert events + [] == events;
  }

  lemma AllLeftRest(bios: seq<Raw>)
    requires Indexed(bios) && bios != [] && SoundChain(AllLeft(bios))
    ensures Indexed(bios[1..]) && AllLeft(bios[1..]) == AllLeft(bios)[1..] && SoundChain(AllLeft(bios[1..]))
    ensures Sound(Left(bios[0])) && AllLeft(bios)[0] == Left(bios[0]) && bios[0].idx <= |bios[0].vecs|
  {
    assert Sound(AllLeft(bios)[0]);
    assert AllLeft(bios[1..]) == AllLeft(bios)[1..];
  }

  /** Where the loop stands: the bios left, `k` pieces and `done` bytes of the first taken,
      `left` bytes to go and `total` behind. */
  ghost predicate At(bar: bool, from: seq<Bio>, n: nat, error: int, bios: seq<Raw>, k: nat, done: nat, total: nat, left: nat,
                     events: seq<Ended>)
  {
    && Indexed(bios) && SoundChain(AllLeft(bios))
    && Doing(bar, from, n, error, AllLeft(bios), done + left, events)
    && total + left == n && (k == 0 ==> done == 0)
    && (bios != [] ==> Walking(bios[0], k, done, left) && (k > 0 ==> done + left < bios[0].size))
  }

  lemma AtStart(bar: bool, error: int, bios: seq<Raw>, n: nat)
    requires Indexed(bios) && SoundChain(AllLeft(bios))
    ensures At(bar, AllLeft(bios), n, error, bios, 0, 0, 0, n, [])
  {
    hide Walking, Doing, Sound;
    DoingStarts(bar, AllLeft(bios), n, error);
    if bios != [] {
      WalkStarts(bios[0], n);
    }
  }

  lemma AtWhole(bar: bool, from: seq<Bio>, n: nat, error: int, bios: seq<Raw>, k: nat, done: nat, total: nat, left: nat,
                events: seq<Ended>)
    requires At(bar, from, n, error, bios, k, done, total, left, events) && bios != [] && left >= bios[0].size
    ensures bios[0].idx <= |bios[0].vecs|
    ensures At(bar, from, n, error, bios[1..], 0, 0, total + bios[0].size, left - bios[0].size,
               events + HandedBack(bar, Left(bios[0]), error))
  {
    hide Walking, Doing, Sound;
    AllLeftRest(bios);
    DoingBio(bar, from, n, error, AllLeft(bios), left, events);
    if bios[1..] != [] {
      WalkStarts(bios[1], left - bios[0].size);
    }
  }

  lemma AtPiece(bar: bool, from: seq<Bio>, n: nat, error: int, bios: seq<Raw>, k: nat, done: nat, total: nat, left: nat,
                events: seq<Ended>)
    requires At(bar, from, n, error, bios, k, done, total, left, events) && bios != [] && left < bios[0].size
    ensures bios[0].idx <= |bios[0].vecs| && bios[0].idx + k < |bios[0].vecs| && done + left < bios[0].size
    ensures bios[0].vecs[bios[0].idx + k].len <= bios[0].size
    ensures (left > 0 || k == 0) && bios[0].vecs[bios[0].idx + k].len <= left ==>
            At(bar, from, n, error, bios, k + 1, done + bios[0].vecs[bios[0].idx + k].len,
               total + bios[0].vecs[bios[0].idx + k].len, left - bios[0].vecs[bios[0].idx + k].len, events)
  {
    hide Walking, Doing, Sound;
    AllLeftRest(bios);
    WalkInside(bios[0], k, done, left);
    if (left > 0 || k == 0) && bios[0].vecs[bios[0].idx + k].len <= left {
      WalkOn(bios[0], k, done, left);
    }
  }

  /** The bios after the loop, once the current one has been brought up to date. */
  ghost function After(bar: bool, bios: seq<Raw>, done: nat, error: int): seq<Bio>
    requires Indexed(bios) && (bios != [] ==> done < bios[0].size)
  {
    if bios == [] then [] else [Partly(bar, Left(bios[0]), done, error)] + AllLeft(bios[1..])
  }

  lemma AtEnd(bar: bool, from: seq<Bio>, n: nat, error: int, bios: seq<Raw>, k: nat, done: nat, total: nat, left: nat,
              events: seq<Ended>)
    requires At(bar, from, n, error, bios, k, done, total, left, events) && (bios != [] ==> left < bios[0].size)
    ensures Indexed(bios) && SoundChain(AllLeft(bios)) && total + left == n
    ensures bios != [] ==> done + left < bios[0].size && Walking(bios[0], k, done, left)
    ensures Complete(bar, from, n, error) == (After(bar, bios, done + left, error), events)
  {
    hide Walking, Doing, Sound, Complete, Partly;
    if bios != [] {
      AllLeftRest(bios);
    }
    DoingEnds(bar, from, n, error, AllLeft(bios), done + left, events);
  }

  /** The error a barrier stand-in remembers. */
  function FirstError(bar: bool, seen: int, error: int): int {
    if bar && error != 0 && seen == 0 then error else seen
  }

  class Transfer {
    var bios: seq<Raw>
    var len: int
    var sector: nat
    var orderError: int
    var ended: seq<Ended>
    const fs: bool
    const bar: bool

    ghost predicate Valid()
      reads this
    {
      Indexed(bios) && WellFormed(View())
    }

    ghost function View(): Req
      requires Indexed(bios)
      reads this
    {
      Req(AllLeft(bios), len, sector, fs, bar)
    }

    /** Accounts `nbytes` to a bio, which is handed back when none are left.  The barrier
        stand-in only remembers its first error. */
    method EndBio(bio: Raw, nbytes: nat, error: int) returns (b: Raw)
      requires nbytes <= bio.size
      modifies this`ended, this`orderError
      ensures b == if bar then bio
                   else bio.(size := bio.size - nbytes, sector := bio.sector + nbytes / 512,
                             uptodate := bio.uptodate && error == 0)
      ensures ended == old(ended) + if !bar && nbytes == bio.size
                                    then [Ended(bio.id, if error != 0 then error else if bio.uptodate then 0 else -EIO)]
                                    else []
      ensures orderError == FirstError(bar, old(orderError), error)
    {
      b := bio;
      if !bar {
        var status := error;
        if error != 0 {
          b := b.(uptodate := false);
        } else if !b.uptodate {
          status := -EIO;
        }
        b := b.(size := b.size - nbytes, sector := b.sector + nbytes / 512);
        if b.size == 0 {
          ended := ended + [Ended(b.id, status)];
        }
      } else if error != 0 && orderError == 0 {
        orderError := error;
      }
    }

    /** The first bio leaves the request whole. */
    method EndWhole(error: int)
      requires bios != [] && bios[0].idx <= |bios[0].vecs|
      modifies this`bios, this`ended, this`orderError
      ensures bios == old(bios)[1..] && ended == old(ended) + HandedBack(bar, old(Left(bios[0])), error)
      ensures orderError == FirstError(bar, old(orderError), error)
    {
      var bio := bios[0];
      bios := bios[1..];
      var _ := EndBio(bio, bio.size, error);
    }

    /** Takes whole bios, then whole pieces of the next, until the bytes are used up.  `k` of
        its pieces are taken whole, `done` bytes in all, the last `left` of them not a whole
        piece. */
    method Take(n: nat, error: int) returns (k: nat, done: nat, total: nat, left: nat, ghost events: seq<Ended>)
      requires Indexed(bios) && SoundChain(AllLeft(bios))
      modifies this`bios, this`ended, this`orderError
      ensures Indexed(bios) && SoundChain(AllLeft(bios)) && ended == old(ended) + events
      ensures bios != [] ==> total == n && left <= done < bios[0].size && Walking(bios[0], k, done - left, left)
                             && bios[0].idx + k < |bios[0].vecs| && (left == 0 || left < bios[0].vecs[bios[0].idx + k].len)
      ensures Complete(bar, old(AllLeft(bios)), n, error) == (After(bar, bios, done, error), events)
      ensures |bios| <= |old(bios)| && (|bios| == |old(bios)| > 0 ==> done == n)
      ensures orderError == if |bios| < |old(bios)| then FirstError(bar, old(orderError), error) else old(orderError)
    {
      hide Complete, Partly, Walking, SoundChain, At, HandedBack, After, AllLeft, Left;
      k, done, total, left, events := 0, 0, 0, n, [];
      ghost var from := AllLeft(bios);
      AtStart(bar, error, bios, n);
      var cur := bios;
      while cur != []
        invariant bios == cur && ended == old(ended) + events
        invariant At(bar, from, n, error, cur, k, done, total, left, events)
        invariant cur != [] ==> left > 0 || k == 0
        invariant |cur| <= |old(bios)| && (|cur| == |old(bios)| ==> total == done)
        invariant orderError == if |cur| < |old(bios)| then FirstError(bar, old(orderError), error) else old(orderError)
        decreases |cur|, if cur == [] then 0 else |cur[0].vecs| - cur[0].idx - k
      {
        var bio := cur[0];
        var nbytes: nat := bio.size;
        if left >= bio.size {
          AtWhole(bar, from, n, error, cur, k, done, total, left, events);
          events := events + HandedBack(bar, Left(bio), error);
          EndWhole(error);
          cur := cur[1..];
          k, done := 0, 0;
        } else {
          AtPiece(bar, from, n, error, cur, k, done, total, left, events);
          nbytes := bio.vecs[bio.idx + k].len;
          if nbytes > left {
            AtEnd(bar, from, n, error, cur, k, done, total, left, events);
            done, total := done + left, total + left;
            return;
          }
          k, done := k + 1, done + nbytes;
        }
        total, left := total + nbytes, left - nbytes;
        if cur != [] && left <= 0 {
          Positive(bar, from, n, error, cur, k, done, total, left, events);
          AtPiece(bar, from, n, error, cur, k, done, total, left, events);
          AtEnd(bar, from, n, error, cur, k, done, total, left, events);
          return;
        }
      }
      AtEnd(bar, from, n, error, cur, k, done, total, left, events);
      NothingAfter(bar, cur, done, done + left, error);
    }

    /** Brings the current bio up to date with the bytes taken from it. */
    method Settle(k: nat, done: nat, left: nat, error: int)
      requires Indexed(bios) && bios != [] && 0 < done < bios[0].size && left <= done
      requires Walking(bios[0], k, done - left, left) && bios[0].idx + k < |bios[0].vecs|
      requires left == 0 || left < bios[0].vecs[bios[0].idx + k].len
      modifies this`bios, this`ended, this`orderError
      ensures Indexed(bios) && AllLeft(bios) == After(bar, old(bios), done, error) && ended == old(ended)
      ensures orderError == FirstError(bar, old(orderError), error)
    {
      hide Walking, Partly, Moved;
      var bio := bios[0];
      var b := EndBio(bio, done, error);
      MovedIsPartly(bar, bio, b, k, done, left, error);
      bios := bios[0 := Moved(b, k, left)];
    }

    /** The bios after `n` bytes: whole ones gone, the current one up to date. */
    method Advance(n: nat, error: int) returns (total: nat, ghost events: seq<Ended>)
      requires Indexed(bios) && SoundChain(AllLeft(bios)) && bios != []
      modifies this`bios, this`ended, this`orderError
      ensures Indexed(bios) && ended == old(ended) + events
      ensures Complete(bar, old(AllLeft(bios)), n, error) == (AllLeft(bios), events)
      ensures n > 0 ==> orderError == FirstError(bar, old(orderError), error)
      ensures bios != [] ==> total == n
    {
      hide Complete, Partly, Walking, SoundChain;
      var k, done, left;
      k, done, total, left, events := Take(n, error);
      if bios == [] {
        assert AllLeft(bios) == [];
        return;
      }
      if done > 0 {
        Settle(k, done, left, error);
      } else {
        NothingDone(bar, bios, error);
      }
    }

    /** Data is left after `n` bytes: the length and the sector move on. */
    method MoveOn(n: nat)
      requires Indexed(bios) && bios != []
      modifies this`len, this`sector
      ensures sector == (if fs then old(sector) + n / 512 else old(sector))
      ensures var l := old(len) - n; len == if l < CurrentBytes(AllLeft(bios)) then CurrentBytes(AllLeft(bios)) else l
    {
      hide CurrentBytes;
      len := len - n;
      if fs {
        sector := sector + n / 512;
      }
      CurrentIs(bios);
      var current := if bios[0].idx < |bios[0].vecs| then bios[0].vecs[bios[0].idx].len else 0;
      if len < current {
        len := current;
      }
    }

    /** Completes `n` bytes with an outcome; says whether data is left. */
    method Update(n: nat, error: int) returns (more: bool)
      requires Valid()
      modifies this
      ensures Indexed(bios)
      ensures var (r, e, m) := Completion.Update(old(View()), n, error);
              View() == r && more == m && ended == old(ended) + e
      ensures n > 0 && old(bios) != [] ==> orderError == FirstError(bar, old(orderError), error)
    {
      hide Complete, SoundChain, WellFormed, CurrentBytes;
      if bios == [] {
        return false;
      }
      ChainIsSound(View());
      var total, events := Advance(n, error);
      if bios == [] {
        len := 0;
        return false;
      }
      MoveOn(total);
      return true;
    }
  }

  lemma MovedIsPartly(bar: bool, bio: Raw, b: Raw, k: nat, done: nat, left: nat, error: int)
    requires bio.idx <= |bio.vecs| && left <= done && 0 < done < bio.size && bio.idx + k < |bio.vecs|
    requires Walking(bio, k, done - left, left) && (left == 0 || left < bio.vecs[bio.idx + k].len)
    requires b == if bar then bio
                  else bio.(size := bio.size - done, sector := bio.sector + done / 512, uptodate := bio.uptodate && error == 0)
    ensures Moved(b, k, left).idx <= |Moved(b, k, left).vecs|
    ensures Left(Moved(b, k, left)) == Partly(bar, Left(bio), done, error)
  {
    hide Walking, Trim;
    WalkStops(bio, k, done - left, left);
  }

  lemma NothingAfter(bar: bool, bios: seq<Raw>, done: nat, done': nat, error: int)
    requires bios == []
    ensures After(bar, bios, done, error) == After(bar, bios, done', error)
  {
  }

  lemma ChainIsSound(r: Req)
    requires WellFormed(r)
    ensures SoundChain(r.bios)
  {
  }

  lemma NothingDone(bar: bool, bios: seq<Raw>, error: int)
    requires Indexed(bios) && bios != [] && 0 < bios[0].size
    ensures After(bar, bios, 0, error) == AllLeft(bios)
  {
  }

  lemma CurrentIs(bios: seq<Raw>)
    requires Indexed(bios) && bios != []
    ensures CurrentBytes(AllLeft(bios)) == if bios[0].idx < |bios[0].vecs| then bios[0].vecs[bios[0].idx].len else 0
  {
    assert AllLeft(bios)[0] == Left(bios[0]);
  }

  lemma Positive(bar: bool, from: seq<Bio>, n: nat, error: int, bios: seq<Raw>, k: nat, done: nat, total: nat, left: nat,
                 events: seq<Ended>)
    requires At(bar, from, n, error, bios, k, done, total, left, events) && bios != []
    ensures 0 < bios[0].size
  {
    assert Sound(AllLeft(bios)[0]);
  }
}
