/** Completing a request some bytes at a time: what is left of its bios, and which have ended. */
module Completion {
  import opened Segments

  const EIO: int := 5

  /** A bio in a request: the pieces left, the bytes left as it records them, and whether
      all went well so far. */
  datatype Bio = Bio(id: nat, sector: nat, vecs: seq<Vec>, size: nat, uptodate: bool)

  /** A bio handed back to whoever submitted it. */
  datatype Ended = Ended(id: nat, error: int)

  /** A request.  `bar` marks the queue's stand-in for a barrier, whose bios the original
      barrier still owns. */
  datatype Req = Req(bios: seq<Bio>, len: int, sector: nat, fs: bool, bar: bool)

  // ----- What the code does ----------------------------------------------------------

  /** The pieces left after the first `n` bytes. */
  function Trim(vecs: seq<Vec>, n: nat): seq<Vec> {
    if vecs == [] || n == 0 then vecs
    else if vecs[0].len > n then [Vec(vecs[0].phys + n, vecs[0].len - n, vecs[0].high)] + vecs[1..]
    else Trim(vecs[1..], n - vecs[0].len)
  }

  /** A bio after some but not all of its bytes.  The barrier stand-in only moves on in its
      pieces. */
  function Partly(bar: bool, b: Bio, n: nat, error: int): Bio
    requires n < b.size
  {
    if n == 0 then b
    else if bar then b.(vecs := Trim(b.vecs, n))
    else b.(vecs := Trim(b.vecs, n), size := b.size - n, sector := b.sector + n / 512, uptodate := b.uptodate && error == 0)
  }

  /** The error a bio ends with: this one, or an earlier one on the same bio. */
  function Status(b: Bio, error: int): int {
    if error != 0 then error else if b.uptodate then 0 else -EIO
  }

  /** The bios left after `n` bytes, and those ended on the way. */
  function Complete(bar: bool, bios: seq<Bio>, n: nat, error: int): (seq<Bio>, seq<Ended>) {
    if bios == [] then ([], [])
    else if n >= bios[0].size then
      var (left, ended) := Complete(bar, bios[1..], n - bios[0].size, error);
      (left, (if bar then [] else [Ended(bios[0].id, Status(bios[0], error))]) + ended)
    else ([Partly(bar, bios[0], n, error)] + bios[1..], [])
  }

  /** Bytes of the current piece. */
  function CurrentBytes(bios: seq<Bio>): nat {
    if bios == [] || bios[0].vecs == [] then 0 else bios[0].vecs[0].len
  }

  /** The request after `n` more bytes, the bios ended, and whether data is left. */
  function Update(r: Req, n: nat, error: int): (Req, seq<Ended>, bool) {
    if r.bios == [] then (r, [], false)
    else
      var (left, ended) := Complete(r.bar, r.bios, n, error);
      if left == [] then (r.(bios := [], len := 0), ended, false)
      else
        var len := r.len - n;
        (r.(bios := left, sector := if r.fs then r.sector + n / 512 else r.sector,
            len := if len < CurrentBytes(left) then CurrentBytes(left) else len), ended, true)
  }

  // ----- Well-formed requests --------------------------------------------------------

  ghost predicate Sound(b: Bio) { b.size == Size(b.vecs) && 0 < b.size }

  ghost predicate SoundChain(bios: seq<Bio>) {
    forall i :: 0 <= i < |bios| ==> Sound(bios[i])
  }

  function Total(bios: seq<Bio>): nat {
    if bios == [] then 0 else bios[0].size + Total(bios[1..])
  }

  ghost predicate WellFormed(r: Req) { SoundChain(r.bios) && r.len == Total(r.bios) }

  /** The addresses of the bytes left, in order. */
  function DataLeft(bios: seq<Bio>): seq<nat> {
    if bios == [] then [] else Bytes(bios[0].vecs) + DataLeft(bios[1..])
  }

  // ----- Pieces ----------------------------------------------------------------------

  lemma SizeFirst(vecs: seq<Vec>)
    requires vecs != []
    ensures Size(vecs) == vecs[0].len + Size(vecs[1..])
  {
    SizeConcat([vecs[0]], vecs[1..]);
    SizeOne(vecs[0]);
    assert [vecs[0]] + vecs[1..] == vecs;
  }

  lemma BytesFirst(vecs: seq<Vec>)
    requires vecs != []
    ensures Bytes(vecs) == Run(vecs[0].phys, vecs[0].len) + Bytes(vecs[1..])
  {
    BytesConcat([vecs[0]], vecs[1..]);
    assert [vecs[0]][..0] == [];
    assert Bytes([vecs[0]]) == Run(vecs[0].phys, vecs[0].len);
    assert [vecs[0]] + vecs[1..] == vecs;
  }

  lemma NoPieces()
    ensures Size([]) == 0 && Bytes([]) == []
  {
  }

  lemma {:induction false} TrimTwice(vecs: seq<Vec>, n1: nat, n2: nat)
    ensures Trim(Trim(vecs, n1), n2) == Trim(vecs, n1 + n2)
    decreases |vecs|
  {
    if vecs != [] && n1 != 0 && vecs[0].len <= n1 {
      TrimTwice(vecs[1..], n1 - vecs[0].len, n2);
    }
  }

  lemma {:induction false} TrimSize(vecs: seq<Vec>, n: nat)
    requires n <= Size(vecs)
    ensures Size(Trim(vecs, n)) == Size(vecs) - n
    decreases |vecs|
  {
    hide Size;
    NoPieces();
    if vecs != [] && n != 0 {
      SizeFirst(vecs);
      if vecs[0].len > n {
        SizeFirst(Trim(vecs, n));
      } else {
        TrimSize(vecs[1..], n - vecs[0].len);
      }
    }
  }

  lemma RunTail(phys: nat, len: nat, n: nat)
    requires n <= len
    ensures Run(phys + n, len - n) == Run(phys, len)[n..]
  {
  }

  lemma {:induction false} BytesLength(vecs: seq<Vec>)
    ensures |Bytes(vecs)| == Size(vecs)
  {
    if vecs != [] {
      BytesLength(vecs[..|vecs| - 1]);
    }
  }

  /** Trimming drops exactly the first `n` bytes. */
  lemma {:induction false} TrimDrops(vecs: seq<Vec>, n: nat)
    requires n <= |Bytes(vecs)|
    ensures Bytes(Trim(vecs, n)) == Bytes(vecs)[n..]
    decreases |vecs|
  {
    hide Bytes;
    NoPieces();
    if vecs != [] && n != 0 {
      BytesFirst(vecs);
      if vecs[0].len > n {
        BytesFirst(Trim(vecs, n));
        RunTail(vecs[0].phys, vecs[0].len, n);
      } else {
        TrimDrops(vecs[1..], n - vecs[0].len);
      }
    }
  }

  // ----- Chains ----------------------------------------------------------------------

  lemma PartlyIsSound(b: Bio, n: nat, error: int)
    requires Sound(b) && n < b.size
    ensures Sound(Partly(false, b, n, error)) && Partly(false, b, n, error).size == b.size - n
    ensures |Bytes(b.vecs)| == b.size && Bytes(Partly(false, b, n, error).vecs) == Bytes(b.vecs)[n..]
  {
    hide Size, Bytes, Trim;
    TrimSize(b.vecs, n);
    BytesLength(b.vecs);
    TrimDrops(b.vecs, n);
    assert Trim(b.vecs, 0) == b.vecs by { TrimNothing(b.vecs); }
  }

  lemma TrimNothing(vecs: seq<Vec>)
    ensures Trim(vecs, 0) == vecs
  {
  }

  /** After any number of bytes the chain is sound again, and what is left of it is the data
      without its first `n` bytes; nothing is left exactly when there were no more. */
  lemma {:induction false} CompleteKeeps(bios: seq<Bio>, n: nat, error: int)
    requires SoundChain(bios)
    ensures var left := Complete(false, bios, n, error).0;
            && SoundChain(left)
            && (left == [] <==> Total(bios) <= n)
            && |DataLeft(bios)| == Total(bios)
            && Total(left) == (if n < Total(bios) then Total(bios) - n else 0)
            && DataLeft(left) == (if n < Total(bios) then DataLeft(bios)[n..] else [])
  {
    hide Sound, Bytes, Partly;
    if bios != [] {
      var b, rest := bios[0], bios[1..];
      assert Sound(b) && SoundChain(rest);
      SoundFacts(b);
      CompleteKeeps(rest, if n >= b.size then n - b.size else 0, error);
      if n < b.size {
        PartlyIsSound(b, n, error);
        var left := [Partly(false, b, n, error)] + rest;
        assert left[1..] == rest;
      }
    }
  }

  lemma SoundFacts(b: Bio)
    requires Sound(b)
    ensures 0 < b.size && |Bytes(b.vecs)| == b.size
  {
    BytesLength(b.vecs);
  }

  /** Bytes of the request up to and including bio `k`. */
  function EndOf(bios: seq<Bio>, k: nat): nat
    requires k < |bios|
  {
    bios[0].size + if k == 0 then 0 else EndOf(bios[1..], k - 1)
  }

  /** A bio is ended exactly when its last byte completes, in order, each once. */
  lemma {:induction false} EndedInOrder(bios: seq<Bio>, n: nat, error: int)
    requires SoundChain(bios)
    ensures var ended := Complete(false, bios, n, error).1;
            && |ended| <= |bios|
            && (forall k :: 0 <= k < |ended| ==> ended[k] == Ended(bios[k].id, Status(bios[k], error)))
            && (forall k :: 0 <= k < |bios| ==> (k < |ended| <==> EndOf(bios, k) <= n))
  {
    hide Sound, Partly, Status;
    if bios != [] {
      var b, rest := bios[0], bios[1..];
      assert Sound(b) && SoundChain(rest);
      var ended := Complete(false, bios, n, error).1;
      if n >= b.size {
        EndedInOrder(rest, n - b.size, error);
        forall k | 0 <= k < |bios| ensures k < |ended| <==> EndOf(bios, k) <= n {
          if k > 0 {
            assert k - 1 < |ended| - 1 <==> EndOf(rest, k - 1) <= n - b.size;
          }
        }
      }
    }
  }

  // ----- Composition -----------------------------------------------------------------

  function NoSector(b: Bio): Bio { b.(sector := 0) }

  /** The same chain but for the sectors recorded in it. */
  ghost predicate Alike(a: seq<Bio>, b: seq<Bio>) {
    |a| == |b| && forall i :: 0 <= i < |a| ==> NoSector(a[i]) == NoSector(b[i])
  }

  ghost predicate WholeSectors(bios: seq<Bio>) {
    forall i :: 0 <= i < |bios| ==> bios[i].size % 512 == 0
  }

  lemma PartlyTwice(b: Bio, n1: nat, n2: nat, error: int)
    requires n1 + n2 < b.size
    ensures var two := Partly(false, Partly(false, b, n1, error), n2, error);
            var one := Partly(false, b, n1 + n2, error);
            NoSector(two) == NoSector(one) && (n1 % 512 == 0 ==> two == one)
  {
    hide Trim;
    TrimTwice(b.vecs, n1, n2);
    TrimNothing(b.vecs);
  }

  /** Completing `n1` bytes and then `n2` leaves the chain, and has ended the bios, that
      completing them at once does. */
  lemma {:induction false} CompleteTwice(bios: seq<Bio>, n1: nat, n2: nat, error: int)
    requires SoundChain(bios)
    ensures var (mid, first) := Complete(false, bios, n1, error);
            var (two, second) := Complete(false, mid, n2, error);
            var (one, all) := Complete(false, bios, n1 + n2, error);
            && Alike(two, one) && first + second == all
            && (n1 % 512 == 0 && WholeSectors(bios) ==> two == one)
  {
    hide Sound, Partly;
    if bios != [] {
      var b, rest := bios[0], bios[1..];
      assert Sound(b) && SoundChain(rest);
      SoundFacts(b);
      if n1 >= b.size {
        CompleteTwice(rest, n1 - b.size, n2, error);
        assert WholeSectors(bios) ==> b.size % 512 == 0 && WholeSectors(rest);
      } else {
        FirstPartly(bios, n1, n2, error);
      }
    }
  }

  lemma FirstPartly(bios: seq<Bio>, n1: nat, n2: nat, error: int)
    requires SoundChain(bios) && bios != [] && n1 < bios[0].size
    ensures var (mid, first) := Complete(false, bios, n1, error);
            var (two, second) := Complete(false, mid, n2, error);
            var (one, all) := Complete(false, bios, n1 + n2, error);
            Alike(two, one) && first + second == all && (n1 % 512 == 0 ==> two == one)
  {
    hide Sound, Partly;
    var b, rest := bios[0], bios[1..];
    var mid := [Partly(false, b, n1, error)] + rest;
    assert mid[1..] == rest;
    PartlyFields(b, n1, error);
    if n1 + n2 < b.size {
      PartlyTwice(b, n1, n2, error);
    }
  }

  lemma PartlyFields(b: Bio, n: nat, error: int)
    requires n < b.size
    ensures var p := Partly(false, b, n, error);
            p.id == b.id && p.size == b.size - n && Status(p, error) == Status(b, error)
  {
  }

  // ----- Requests --------------------------------------------------------------------

  lemma {:induction false} CurrentFits(bios: seq<Bio>)
    requires SoundChain(bios)
    ensures CurrentBytes(bios) <= Total(bios)
  {
    if bios != [] && bios[0].vecs != [] {
      assert Sound(bios[0]);
      SizeFirst(bios[0].vecs);
    }
  }

  /** An ordinary request stays well-formed, so its length never falls below the current
      piece and the repair for a botched request is never made. */
  lemma UpdateKeeps(r: Req, n: nat, error: int)
    requires WellFormed(r) && !r.bar
    ensures var (r', ended, more) := Update(r, n, error);
            && WellFormed(r') && (more <==> n < r.len)
            && r'.len == (if more then r.len - n else 0)
            && (if more && r.fs then 512 * (r'.sector - r.sector) <= n < 512 * (r'.sector - r.sector) + 512 else r'.sector == r.sector)
            && CurrentBytes(r'.bios) <= r'.len && |DataLeft(r.bios)| == r.len
            && DataLeft(r'.bios) == (if n < r.len then DataLeft(r.bios)[n..] else [])
  {
    hide SoundChain, Complete, CurrentBytes, DataLeft, Total;
    if r.bios == [] {
      NoBios();
    } else {
      var left := Complete(r.bar, r.bios, n, error).0;
      CompleteKeeps(r.bios, n, error);
      CurrentFits(left);
      NoBios();
    }
  }

  lemma NoBios()
    ensures Total([]) == 0 && DataLeft([]) == [] && SoundChain([]) && CurrentBytes([]) == 0
  {
  }

  /** Completing in two steps or in one: the same chain and length, the same bios ended.  The
      request's own sector is the same exactly when no part of a sector is lost by rounding
      each step down; the bios' sectors are when they and the first step are whole sectors. */
  lemma UpdateTwice(r: Req, n1: nat, n2: nat, error: int)
    requires WellFormed(r) && !r.bar
    ensures var (mid, first, _) := Update(r, n1, error);
            var (two, second, more2) := Update(mid, n2, error);
            var (one, all, more1) := Update(r, n1 + n2, error);
            && Alike(two.bios, one.bios) && two.len == one.len && more2 == more1 && first + second == all
            && two == one.(bios := two.bios, sector := two.sector)
            && (two.sector == one.sector <==>
                  !r.fs || n1 >= r.len || if more1 then n1 % 512 + n2 % 512 < 512 else n1 < 512)
            && (more1 && n1 % 512 == 0 && WholeSectors(r.bios) ==> two.bios == one.bios)
  {
    hide SoundChain, Complete, CurrentBytes, DataLeft, Alike, WholeSectors, Total;
    CompleteTwice(r.bios, n1, n2, error);
    CompleteKeeps(r.bios, n1, error);
    CompleteKeeps(r.bios, n1 + n2, error);
    UpdateKeeps(r, n1, error);
    UpdateKeeps(r, n1 + n2, error);
    UpdateKeeps(Update(r, n1, error).0, n2, error);
    NoneCompletes(n2, error);
    RoundedDown(n1, n2);
  }

  lemma RoundedDown(a: nat, b: nat)
    ensures a / 512 + b / 512 == (a + b) / 512 <==> a % 512 + b % 512 < 512
    ensures a / 512 == 0 <==> a < 512
  {
  }

  lemma NoneCompletes(n: nat, error: int)
    ensures Complete(false, [], n, error) == ([], []) && Alike([], [])
  {
  }

  /** An error on any part of a bio is what the whole bio ends with. */
  lemma ErrorSticks(b: Bio, n: nat, error: int, later: int)
    requires 0 < n < b.size && error != 0
    ensures Status(Partly(false, b, n, error), later) == if later != 0 then later else -EIO
  {
  }

  // ----- The barrier stand-in --------------------------------------------------------

  /** `n` bytes end at the end of a bio, or nothing is done. */
  predicate OnBoundary(bios: seq<Bio>, n: nat) {
    n == 0 || (bios != [] && n >= bios[0].size && OnBoundary(bios[1..], n - bios[0].size))
  }

  /** A partial completion of the barrier stand-in takes the pieces but not the recorded
      size, so the chain stays sound exactly when the cut is between bios. */
  lemma {:induction false} BarKeepsIff(bios: seq<Bio>, n: nat, error: int)
    requires SoundChain(bios) && n < Total(bios)
    ensures SoundChain(Complete(true, bios, n, error).0) <==> OnBoundary(bios, n)
  {
    var b, rest := bios[0], bios[1..];
    assert Sound(b) && SoundChain(rest);
    if n >= b.size {
      BarKeepsIff(rest, n - b.size, error);
    } else {
      hide Size;
      var left := Complete(true, bios, n, error).0;
      TrimSize(b.vecs, n);
      assert left[0] == Partly(true, b, n, error);
      assert n == 0 ==> left == bios;
    }
  }

  /** One report of completed bytes. */
  datatype Cut = Cut(n: nat, error: int)

  function Sum(cuts: seq<Cut>): nat {
    if cuts == [] then 0 else cuts[0].n + Sum(cuts[1..])
  }

  /** The request after one report after the other. */
  function Updated(r: Req, cuts: seq<Cut>): Req
    decreases |cuts|
  {
    if cuts == [] then r else Updated(Update(r, cuts[0].n, cuts[0].error).0, cuts[1..])
  }

  /** Every report, from `at` on, stops at the end of a bio, counted from the start. */
  predicate Stops(bios: seq<Bio>, at: nat, cuts: seq<Cut>)
    decreases |cuts|
  {
    cuts == [] || (OnBoundary(bios, at + cuts[0].n) && Stops(bios, at + cuts[0].n, cuts[1..]))
  }

  ghost predicate Sized(bios: seq<Bio>) { forall i :: 0 <= i < |bios| ==> 0 < bios[i].size }

  /** The bytes of the bios that lie wholly within the first `n`. */
  function Whole(bios: seq<Bio>, n: nat): nat {
    if bios == [] || n < bios[0].size then 0 else bios[0].size + Whole(bios[1..], n - bios[0].size)
  }

  /** The stand-in only gets rid of whole bios: the rest of a report is asked for again. */
  lemma {:induction false} BarLeft(bios: seq<Bio>, n: nat, error: int)
    requires Sized(bios)
    ensures var left := Complete(true, bios, n, error).0;
      Sized(left) && Total(left) == Total(bios) - Whole(bios, n) && (left == [] <==> Total(bios) <= n)
    ensures Whole(bios, n) <= n && (Whole(bios, n) == n <==> OnBoundary(bios, n))
  {
    if bios != [] && n >= bios[0].size {
      BarLeft(bios[1..], n - bios[0].size, error);
    } else if bios != [] {
      var left := Complete(true, bios, n, error).0;
      assert left[1..] == bios[1..] && left[0].size == bios[0].size;
    }
  }

  /** From between two bios on, boundaries are where they were. */
  lemma {:induction false} LaterBoundary(bios: seq<Bio>, at: nat, error: int, n: nat)
    requires Sized(bios) && OnBoundary(bios, at)
    ensures OnBoundary(Complete(true, bios, at, error).0, n) <==> OnBoundary(bios, at + n)
  {
    if at == 0 {
      assert Complete(true, bios, 0, error).0 == bios;
    } else {
      LaterBoundary(bios[1..], at - bios[0].size, error, n);
    }
  }

  lemma {:induction false} LaterChain(bios: seq<Bio>, at: nat, error: int, n: nat, later: int)
    requires Sized(bios) && OnBoundary(bios, at)
    ensures Complete(true, Complete(true, bios, at, error).0, n, later).0 == Complete(true, bios, at + n, later).0
  {
    if at == 0 {
      assert Complete(true, bios, 0, error).0 == bios;
    } else {
      LaterChain(bios[1..], at - bios[0].size, error, n, later);
    }
  }

  /** A report adds to what is left unless it stops at the end of a bio. */
  lemma {:induction false} BytesAskedAgain(r: Req, cuts: seq<Cut>)
    requires r.bar && Sized(r.bios)
    ensures var last := Updated(r, cuts); Sized(last.bios) && Total(last.bios) + Sum(cuts) >= Total(r.bios)
    decreases |cuts|
  {
    if cuts != [] {
      BarStep(r, cuts[0].n, cuts[0].error);
      BytesAskedAgain(Update(r, cuts[0].n, cuts[0].error).0, cuts[1..]);
      BarLeft(r.bios, cuts[0].n, cuts[0].error);
    }
  }

  lemma BarStep(r: Req, n: nat, error: int)
    requires r.bar && Sized(r.bios)
    ensures var (next, _, more) := Update(r, n, error);
      && next.bar && next.bios == Complete(true, r.bios, n, error).0 && Sized(next.bios)
      && (more <==> n < Total(r.bios)) && (more <==> next.bios != [])
  {
    BarLeft(r.bios, n, error);
  }

  lemma {:induction false} CutsEnd(bios: seq<Bio>, at: nat, error: int, r: Req, cuts: seq<Cut>)
    requires Sized(bios) && OnBoundary(bios, at) && r.bar && r.bios == Complete(true, bios, at, error).0
    requires Sum(cuts) == Total(r.bios)
    ensures Updated(r, cuts).bios == [] <==> Stops(bios, at, cuts)
    decreases |cuts|
  {
    hide Update, Complete, OnBoundary;
    BarLeft(bios, at, error);
    if cuts == [] {
      NoneLeft(r.bios);
    } else {
      var n := cuts[0].n;
      var next := Update(r, n, cuts[0].error).0;
      BarStep(r, n, cuts[0].error);
      BarLeft(r.bios, n, cuts[0].error);
      LaterBoundary(bios, at, error, n);
      if OnBoundary(r.bios, n) {
        LaterChain(bios, at, error, n, cuts[0].error);
        CutsEnd(bios, at + n, cuts[0].error, next, cuts[1..]);
      } else {
        BytesAskedAgain(next, cuts[1..]);
        NoneLeft(Updated(next, cuts[1..]).bios);
      }
    }
  }

  lemma NoneLeft(bios: seq<Bio>)
    requires Sized(bios)
    ensures bios == [] <==> Total(bios) == 0
  {
  }

  /** The stand-in's bytes reported in any number of pieces: it ends with the last byte if and
      only if every report stops at the end of a bio. */
  lemma BarEndsIff(r: Req, cuts: seq<Cut>)
    requires WellFormed(r) && r.bar && Sum(cuts) == r.len
    ensures Updated(r, cuts).bios == [] <==> Stops(r.bios, 0, cuts)
  {
    hide Size;
    assert Complete(true, r.bios, 0, 0).0 == r.bios by { NoBytes(r.bios); }
    CutsEnd(r.bios, 0, 0, r, cuts);
  }

  lemma NoBytes(bios: seq<Bio>)
    requires Sized(bios)
    ensures Complete(true, bios, 0, 0).0 == bios
  {
  }

  /** In two pieces, and what it takes then: whether data is left is told by the bytes of the
      bios that are left, not by those still to come. */
  lemma BarInTwo(r: Req, n: nat, error: int, later: int)
    requires WellFormed(r) && r.bar && n < r.len
    ensures var left := Update(r, n, error).0;
      && Total(left.bios) == r.len - Whole(r.bios, n)
      && (Update(left, r.len - n, later).2 <==> !OnBoundary(r.bios, n))
      && !Update(left, Total(left.bios), later).2
  {
    hide Size, Complete, OnBoundary;
    assert Sized(r.bios);
    BarStep(r, n, error);
    BarLeft(r.bios, n, error);
    var left := Update(r, n, error).0;
    BarStep(left, r.len - n, later);
    BarStep(left, Total(left.bios), later);
  }

  /** Two halves of a one-bio barrier: all its bytes are done, yet the request says that
      data is left. */
  lemma BarDoesNotEnd()
    ensures var b := Bio(0, 0, [Vec(0, 512, false), Vec(4096, 512, false)], 1024, true);
            var r := Req([b], 1024, 0, true, true);
            WellFormed(r) && Update(Update(r, 512, 0).0, 512, 0).2
  {
    var v, w := Vec(0, 512, false), Vec(4096, 512, false);
    var b := Bio(0, 0, [v, w], 1024, true);
    SizeFirst([v, w]);
    SizeOne(w);
    assert [v, w][1..] == [w];
    assert Total([b]) == 1024;
    assert Trim([v, w], 512) == [w] by { assert Trim([w], 0) == [w]; }
    var half := Partly(true, b, 512, 0);
    assert half == b.(vecs := [w]);
    assert Complete(true, [b], 512, 0).0 == [half];
    assert Complete(true, [half], 512, 0).0 != [];
  }
}
