/** Counting requests by what they are, over the sequences that hold them. */
module Tallies {
  import opened Requests
  import opened BarrierModel

  datatype Test = ByKind(kind: Kind) | ByStamp(stamp: nat) | InFlight

  predicate Passes(t: Test, r: Request) {
    match t
    case ByKind(k) => r.kind == k
    case ByStamp(n) => !r.IsProxy() && r.stamp == n
    case InFlight => r.Accounted()
  }

  function One(t: Test, r: Request): nat { if Passes(t, r) then 1 else 0 }

  function Tally(s: seq<Request>, t: Test): nat {
    if s == [] then 0 else One(t, s[0]) + Tally(s[1..], t)
  }

  lemma {:induction false} TallyConcat(a: seq<Request>, b: seq<Request>, t: Test)
    ensures Tally(a + b, t) == Tally(a, t) + Tally(b, t)
  {
    if a == [] {
      assert a + b == b;
    } else {
      TallyConcat(a[1..], b, t);
      assert (a + b)[1..] == a[1..] + b;
    }
  }

  lemma TallyInsert(s: seq<Request>, at: nat, r: Request)
    requires at <= |s|
    ensures forall t :: Tally(InsertAt(s, at, r), t) == Tally(s, t) + One(t, r)
  {
    forall t
      ensures Tally(InsertAt(s, at, r), t) == Tally(s, t) + One(t, r)
    {
      TallyConcat(s[..at] + [r], s[at..], t);
      TallyConcat(s[..at], [r], t);
      TallyConcat(s[..at], s[at..], t);
      assert s[..at] + s[at..] == s;
      assert Tally([r], t) == One(t, r) + Tally([], t);
    }
  }

  lemma TallyAppend(s: seq<Request>, r: Request)
    ensures forall t :: Tally(s + [r], t) == Tally(s, t) + One(t, r)
  {
    TallyInsert(s, |s|, r);
    assert InsertAt(s, |s|, r) == s + [r];
  }

  lemma TallyRemove(s: seq<Request>, i: nat)
    requires i < |s|
    ensures forall t :: Tally(RemoveAt(s, i), t) + One(t, s[i]) == Tally(s, t)
  {
    TallyInsert(RemoveAt(s, i), i, s[i]);
    assert InsertAt(RemoveAt(s, i), i, s[i]) == s;
  }

  /** A request that passes a test is counted, and two are counted twice. */
  lemma {:induction false} TallyMember(s: seq<Request>, i: nat, t: Test)
    requires i < |s| && Passes(t, s[i])
    ensures 1 <= Tally(s, t)
    ensures forall j :: i < j < |s| && Passes(t, s[j]) ==> 2 <= Tally(s, t)
  {
    TallyRemove(s, i);
    forall j | i < j < |s| && Passes(t, s[j])
      ensures 2 <= Tally(s, t)
    {
      var u := RemoveAt(s, i);
      TallyRemove(u, j - 1);
      assert u[j - 1] == s[j];
    }
  }

  lemma {:induction false} TallyNone(s: seq<Request>, t: Test)
    requires Tally(s, t) == 0
    ensures forall i :: 0 <= i < |s| ==> !Passes(t, s[i])
  {
    if s != [] {
      TallyNone(s[1..], t);
      assert forall i :: 0 < i < |s| ==> s[i] == s[1..][i - 1];
    }
  }

  lemma {:induction false} TallyZero(s: seq<Request>, t: Test)
    requires forall i :: 0 <= i < |s| ==> !Passes(t, s[i])
    ensures Tally(s, t) == 0
  {
    if s != [] { TallyZero(s[1..], t); }
  }

  /** A positive count has a witness. */
  lemma {:induction false} TallyWitness(s: seq<Request>, t: Test) returns (i: nat)
    requires 0 < Tally(s, t)
    ensures i < |s| && Passes(t, s[i])
  {
    if Passes(t, s[0]) {
      i := 0;
    } else {
      i := TallyWitness(s[1..], t);
      i := i + 1;
    }
  }
}
