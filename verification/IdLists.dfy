/** Lists of identifiers, each named once. */
module IdLists {

  ghost predicate Unique(s: seq<nat>) {
    forall i, j :: 0 <= i < j < |s| ==> s[i] != s[j]
  }

  function IndexOf(s: seq<nat>, x: nat): (k: nat)
    requires x in s
    ensures k < |s| && s[k] == x
  {
    if s[0] == x then 0 else 1 + IndexOf(s[1..], x)
  }

  function DropAt(s: seq<nat>, k: nat): seq<nat>
    requires k < |s|
  {
    s[..k] + s[k + 1..]
  }

  function PutAt(s: seq<nat>, k: nat, x: nat): seq<nat>
    requires k <= |s|
  {
    s[..k] + [x] + s[k..]
  }

  lemma DropIndex(s: seq<nat>, k: nat, i: nat)
    requires k < |s| && i < |s| - 1
    ensures DropAt(s, k)[i] == s[if i < k then i else i + 1]
  {
  }

  lemma PutIndex(s: seq<nat>, k: nat, x: nat, i: nat)
    requires k <= |s| && i <= |s|
    ensures PutAt(s, k, x)[i] == if i < k then s[i] else if i == k then x else s[i - 1]
  {
  }

  lemma DropUnique(s: seq<nat>, k: nat)
    requires Unique(s) && k < |s|
    ensures Unique(DropAt(s, k))
  {
    var r := DropAt(s, k);
    hide DropAt;
    forall i, j | 0 <= i < j < |r| ensures r[i] != r[j] {
      DropIndex(s, k, i);
      DropIndex(s, k, j);
    }
  }

  lemma DropOthers(s: seq<nat>, k: nat, x: nat)
    requires k < |s| && x in s && x != s[k]
    ensures x in DropAt(s, k)
  {
    var m :| 0 <= m < |s| && s[m] == x;
    DropIndex(s, k, if m < k then m else m - 1);
  }

  lemma DropGone(s: seq<nat>, k: nat, x: nat)
    requires Unique(s) && k < |s| && x in DropAt(s, k)
    ensures x in s && x != s[k]
  {
    var r := DropAt(s, k);
    var m :| 0 <= m < |r| && r[m] == x;
    DropIndex(s, k, m);
  }

  /** Dropping an identifier leaves all the others, each once. */
  lemma DropMembers(s: seq<nat>, k: nat)
    requires Unique(s) && k < |s|
    ensures Unique(DropAt(s, k))
    ensures forall x :: x in DropAt(s, k) <==> x in s && x != s[k]
  {
    DropUnique(s, k);
    forall x ensures x in DropAt(s, k) <==> x in s && x != s[k] {
      hide DropAt, Unique;
      if x in s && x != s[k] {
        DropOthers(s, k, x);
      }
      if x in DropAt(s, k) {
        DropGone(s, k, x);
      }
    }
  }

  /** Putting in a new one keeps each once. */
  lemma PutMembers(s: seq<nat>, k: nat, x: nat)
    requires Unique(s) && k <= |s| && x !in s
    ensures Unique(PutAt(s, k, x))
    ensures forall y :: y in PutAt(s, k, x) <==> y in s || y == x
  {
    var r := PutAt(s, k, x);
    assert s == s[..k] + s[k..];
    assert forall y :: y in r <==> y in s || y == x;
    hide PutAt;
    forall i, j | 0 <= i < j < |r| ensures r[i] != r[j] {
      PutIndex(s, k, x, i);
      PutIndex(s, k, x, j);
    }
  }
}
