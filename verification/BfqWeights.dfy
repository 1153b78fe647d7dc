/** In every state the scheduler can reach: a class's weight sum is the sum of the weights of
    its entities, and the queue under service has not overrun its budget. */
module BfqWeights {
  import opened Requests
  import opened IdLists
  import opened BfqModel

  // ----- Sums ------------------------------------------------------------------------

  /** What an entity adds to a class's weight sum. */
  function Part(e: Ent, c: nat): int { if e.onSt && e.cls == c then e.weight else 0 }

  function WeightIn(ents: seq<Ent>, c: nat): int {
    if ents == [] then 0 else WeightIn(ents[..|ents| - 1], c) + Part(ents[|ents| - 1], c)
  }

  lemma {:induction false} SumUpdate(ents: seq<Ent>, i: nat, e: Ent, c: nat)
    requires i < |ents|
    ensures WeightIn(ents[i := e], c) == WeightIn(ents, c) - Part(ents[i], c) + Part(e, c)
  {
    var n := |ents| - 1;
    if i < n {
      SumUpdate(ents[..n], i, e, c);
      assert ents[i := e][..n] == ents[..n][i := e];
    } else {
      assert ents[i := e][..n] == ents[..n];
    }
  }

  ghost predicate NonNegative(ents: seq<Ent>) {
    forall i :: 0 <= i < |ents| ==> ents[i].weight >= 0
  }

  lemma {:induction false} PartIsIn(ents: seq<Ent>, i: nat, c: nat)
    requires NonNegative(ents) && i < |ents|
    ensures 0 <= Part(ents[i], c) <= WeightIn(ents, c)
  {
    var n := |ents| - 1;
    SumIsNotNegative(ents[..n], c);
    if i < n {
      PartIsIn(ents[..n], i, c);
      assert ents[..n][i] == ents[i];
    }
  }

  lemma {:induction false} SumIsNotNegative(ents: seq<Ent>, c: nat)
    requires NonNegative(ents)
    ensures 0 <= WeightIn(ents, c)
  {
    if ents != [] {
      SumIsNotNegative(ents[..|ents| - 1], c);
    }
  }

  // ----- The invariant ---------------------------------------------------------------

  /** Weights, priorities, classes and budgets within their ranges. */
  predicate Sane(e: Ent) {
    && e.weight >= 0 && e.origWeight >= 0 && e.newWeight >= 0 && e.coeff >= 1 && e.budget >= 0
    && 0 <= e.ioprio <= LEVELS && 0 <= e.newIoprio < LEVELS && e.cls < CLASSES && e.newCls < CLASSES
  }

  /** An entity counts in its class exactly while it is on a tree or under service; under
      service it is on no tree. */
  predicate Accounted(e: Ent, served: bool) {
    && Sane(e)
    && (e.onSt <==> e.spot != Off || served)
    && (served ==> e.spot == Off)
  }

  ghost predicate EntsOk(ents: seq<Ent>, served: Option<nat>) {
    && (forall i :: 0 <= i < |ents| ==> Accounted(ents[i], served == Some(i)))
    && (served.Some? ==> served.value < |ents|)
  }

  ghost predicate Balanced(ents: seq<Ent>, st: seq<Service>) {
    |st| == CLASSES && forall c :: 0 <= c < CLASSES ==> st[c].wsum == WeightIn(ents, c)
  }

  /** An idle list names each entity once, and the pointers are into it. */
  ghost predicate ListOk(s: Service) {
    && Unique(s.idle)
    && s.first == (if s.idle == [] then None else Some(s.idle[0]))
    && (s.last.Some? ==> s.last.value in s.idle)
  }

  /** A class's idle list names just its idle entities. */
  ghost predicate Lists(ents: seq<Ent>, s: Service, c: nat) {
    ListOk(s) && forall i: nat :: i in s.idle <==> i < |ents| && ents[i].spot == OnIdle && ents[i].cls == c
  }

  ghost predicate ListsOk(ents: seq<Ent>, st: seq<Service>) {
    |st| == CLASSES && forall c :: 0 <= c < CLASSES ==> Lists(ents, st[c], c)
  }

  ghost predicate Inv(b: Bfq) {
    EntsOk(b.ents, b.served) && Balanced(b.ents, b.st) && ListsOk(b.ents, b.st)
  }

  /** The entity under service has not used more than its budget. */
  ghost predicate WithinBudget(b: Bfq) {
    b.served.Some? ==>
      b.served.value < |b.ents| && 0 <= b.ents[b.served.value].service <= b.ents[b.served.value].budget
  }

  lemma InvShaped(b: Bfq)
    requires Inv(b)
    ensures Shaped(b)
  {
    forall i | 0 <= i < |b.ents| ensures b.ents[i].cls < CLASSES && b.ents[i].newCls < CLASSES {
      assert Accounted(b.ents[i], b.served == Some(i));
    }
  }

  lemma At(b: Bfq, i: nat)
    requires Inv(b) && i < |b.ents|
    ensures Shaped(b) && Accounted(b.ents[i], b.served == Some(i))
    ensures b.st[b.ents[i].cls].wsum == WeightIn(b.ents, b.ents[i].cls) && Lists(b.ents, b.st[b.ents[i].cls], b.ents[i].cls)
  {
    InvShaped(b);
  }

  // ----- One entity changes ----------------------------------------------------------

  lemma EntsUpdate(ents: seq<Ent>, served: Option<nat>, i: nat, e: Ent, served': Option<nat>)
    requires EntsOk(ents, served) && i < |ents| && Accounted(e, served' == Some(i))
    requires served' == served || (served == Some(i) && served' == None) || (served == None && served' == Some(i))
    ensures EntsOk(ents[i := e], served')
  {
    forall j | 0 <= j < |ents| ensures Accounted(ents[i := e][j], served' == Some(j)) {
      assert Accounted(ents[j], served == Some(j));
    }
  }

  lemma BalanceUpdate(ents: seq<Ent>, st: seq<Service>, i: nat, e: Ent, st': seq<Service>)
    requires Balanced(ents, st) && i < |ents| && |st'| == CLASSES
    requires forall c :: 0 <= c < CLASSES ==> st'[c].wsum == st[c].wsum - Part(ents[i], c) + Part(e, c)
    ensures Balanced(ents[i := e], st')
  {
    hide Part, WeightIn;
    forall c | 0 <= c < CLASSES ensures st'[c].wsum == WeightIn(ents[i := e], c) {
      SumUpdate(ents, i, e, c);
    }
  }

  /** Lists go along when the entity's place in them does. */
  lemma ListsUpdate(ents: seq<Ent>, st: seq<Service>, i: nat, e: Ent, st': seq<Service>)
    requires ListsOk(ents, st) && i < |ents| && |st'| == CLASSES
    requires forall c :: 0 <= c < CLASSES ==> ListOk(st'[c]) && ListMoves(st[c], st'[c], i, e.spot == OnIdle && e.cls == c)
    ensures ListsOk(ents[i := e], st')
  {
    hide ListOk;
    forall c | 0 <= c < CLASSES ensures Lists(ents[i := e], st'[c], c) {
      assert Lists(ents, st[c], c) && ListMoves(st[c], st'[c], i, e.spot == OnIdle && e.cls == c);
    }
  }

  /** The same list but for one entity, which is in it or not. */
  ghost predicate ListMoves(s: Service, s': Service, i: nat, has: bool) {
    && (forall j: nat :: j != i ==> (j in s'.idle <==> j in s.idle))
    && (i in s'.idle <==> has)
  }

  lemma RemovedList(s: Service, i: nat)
    requires ListOk(s) && i in s.idle
    ensures ListOk(IdleRemoved(s, i)) && ListMoves(s, IdleRemoved(s, i), i, false)
  {
    var k, r := IndexOf(s.idle, i), IdleRemoved(s, i);
    DropMembers(s.idle, k);
    assert s.first == Some(i) ==> k == 0;
    assert k > 0 ==> r.idle[0] == s.idle[0];
    assert k == 0 && r.idle != [] ==> r.idle[0] == s.idle[1];
    assert s.last == Some(i) && k > 0 ==> r.idle[k - 1] == s.idle[k - 1];
    hide IndexOf, DropAt;
  }

  lemma InsertedList(ents: seq<Ent>, s: Service, i: nat, finish: int)
    requires ListOk(s) && i !in s.idle && forall j :: j in s.idle ==> j < |ents|
    ensures ListOk(IdleInserted(ents, s, i, finish)) && ListMoves(s, IdleInserted(ents, s, i, finish), i, true)
  {
    var k := IdlePlace(ents, s.idle, finish);
    PutMembers(s.idle, k, i);
    assert s.idle != [] ==> s.idle[0] in s.idle;
    hide Unique;
  }

  // ----- Each operation --------------------------------------------------------------

  /** Taking an entity off what holds it moves no weight and no other entity. */
  lemma DetachedIs(b: Bfq, i: nat)
    requires Inv(b) && i < |b.ents|
    ensures Shaped(b)
    ensures var d := Detached(b, i);
            && d.ents == b.ents[i := b.ents[i].(spot := Off)] && |d.st| == CLASSES
            && d.served == (if b.served == Some(i) then None else b.served)
            && (forall c :: 0 <= c < CLASSES ==> d.st[c].wsum == b.st[c].wsum && d.st[c].vtime == b.st[c].vtime)
            && (forall c :: 0 <= c < CLASSES ==> ListOk(d.st[c]) && ListMoves(b.st[c], d.st[c], i, false))
  {
    InvShaped(b);
    var e, d := b.ents[i], Detached(b, i);
    forall c | 0 <= c < CLASSES ensures ListOk(d.st[c]) && ListMoves(b.st[c], d.st[c], i, false) {
      assert Lists(b.ents, b.st[c], c);
      hide ListOk, IdleRemoved;
      if i in b.st[c].idle {
        RemovedList(b.st[c], i);
      }
    }
  }

  lemma ReprioritizedIsSane(e: Ent)
    requires Sane(e)
    ensures Sane(Reprioritized(e)) && Reprioritized(e).onSt == e.onSt && Reprioritized(e).spot == e.spot
    ensures Reprioritized(e).budget == e.budget && Reprioritized(e).service == e.service
  {
    var f := Reprioritized(e);
    assert f.origWeight * f.coeff >= 0 by { Product(f.origWeight, f.coeff); }
  }

  lemma Product(x: int, y: int)
    requires x >= 0 && y >= 1
    ensures x * y >= x
  {
  }

  /** A change of weight or class takes the old weight out and puts the new one in. */
  lemma ReweighIs(b: Bfq, i: nat)
    requires i < |b.ents| && |b.st| == CLASSES && Sane(b.ents[i]) && b.ents[i].onSt
    ensures var r, e := Reweigh(b, i), b.ents[i];
            && |r.ents| == |b.ents| && r.ents == b.ents[i := r.ents[i]] && r.served == b.served && |r.st| == CLASSES
            && Sane(r.ents[i]) && r.ents[i].onSt && r.ents[i].spot == e.spot
            && r.ents[i].budget == e.budget && r.ents[i].service == e.service
            && (forall c :: 0 <= c < CLASSES ==> r.st[c].wsum == b.st[c].wsum - Part(e, c) + Part(r.ents[i], c))
            && (forall c :: 0 <= c < CLASSES ==> SameList(b.st[c], r.st[c]))
  {
    hide Reprioritized;
    ReprioritizedIsSane(b.ents[i]);
    assert b.ents == b.ents[i := b.ents[i]];
  }

  ghost predicate SameList(s: Service, s': Service) {
    s'.idle == s.idle && s'.first == s.first && s'.last == s.last
  }

  lemma SameListOk(s: Service, s': Service, t: Service, i: nat, has: bool)
    requires ListOk(s') && ListMoves(s, s', i, has) && SameList(s', t)
    ensures ListOk(t) && ListMoves(s, t, i, has)
  {
  }

  /** One entity changed, its weight and its place in the idle lists with it. */
  ghost predicate Effect(b: Bfq, a: Bfq, i: nat, idle: bool) {
    && i < |b.ents| == |a.ents| && a.ents == b.ents[i := a.ents[i]] && |a.st| == |b.st| == CLASSES
    && (forall c :: 0 <= c < CLASSES ==> a.st[c].wsum == b.st[c].wsum - Part(b.ents[i], c) + Part(a.ents[i], c))
    && (forall c :: 0 <= c < CLASSES ==> ListOk(a.st[c]) && ListMoves(b.st[c], a.st[c], i, idle && a.ents[i].cls == c))
  }

  lemma RestartedIs(b: Bfq, i: nat)
    requires Inv(b) && i < |b.ents|
    ensures Shaped(b) && Effect(b, Restarted(b, i), i, false)
    ensures var r := Restarted(b, i);
            r.served == (if b.served == Some(i) then None else b.served) && Sane(r.ents[i]) && r.ents[i].onSt
  {
    At(b, i);
    DetachedIs(b, i);
    hide Inv, Detached, ListOk, ListMoves, Sane, Restart;
    var e, d, r := b.ents[i], Detached(b, i), Restarted(b, i);
    RestartedIsSane(e, r.ents[i]);
    forall c | 0 <= c < CLASSES ensures ListOk(r.st[c]) && ListMoves(b.st[c], r.st[c], i, false) {
      SameListOk(b.st[c], d.st[c], r.st[c], i, false);
    }
  }

  lemma ReweighEffect(b: Bfq, a: Bfq, i: nat)
    requires Effect(b, a, i, false) && Sane(a.ents[i]) && a.ents[i].onSt
    ensures Effect(b, Reweigh(a, i), i, false) && Reweigh(a, i).served == a.served
    ensures Sane(Reweigh(a, i).ents[i]) && Reweigh(a, i).ents[i].onSt
  {
    hide Reweigh, ListOk, ListMoves, Part;
    ReweighIs(a, i);
    var r := Reweigh(a, i);
    forall c | 0 <= c < CLASSES ensures ListOk(r.st[c]) && ListMoves(b.st[c], r.st[c], i, false) {
      SameListOk(b.st[c], a.st[c], r.st[c], i, false);
    }
  }

  /** What activation does, whatever state the entity is in. */
  lemma ActivateIs(b: Bfq, i: nat)
    requires Inv(b) && i < |b.ents|
    ensures Shaped(b) && Effect(b, Activate(b, i), i, false)
    ensures var a := Activate(b, i);
            && a.served == (if b.served == Some(i) then None else b.served)
            && Sane(a.ents[i]) && a.ents[i].onSt && a.ents[i].spot == OnActive
  {
    hide Inv, Shaped, Restarted, Reweigh, ListOk, ListMoves;
    RestartedIs(b, i);
    ReweighEffect(b, Restarted(b, i), i);
    ActivatedIsSane(Reweigh(Restarted(b, i), i).ents[i], Activate(b, i).ents[i]);
  }

  lemma RestartedIsSane(e: Ent, f: Ent)
    requires Sane(e) && f == e.(spot := Off, start := f.start, onSt := true)
    ensures Sane(f)
  {
  }

  lemma ActivatedIsSane(e: Ent, f: Ent)
    requires Sane(e) && f == e.(spot := OnActive, finish := f.finish)
    ensures Sane(f)
  {
  }

  lemma EffectKeeps(b: Bfq, a: Bfq, i: nat)
    requires Inv(b) && i < |b.ents| == |a.ents| && Effect(b, a, i, a.ents[i].spot == OnIdle)
    requires Accounted(a.ents[i], a.served == Some(i))
    requires a.served == b.served || (b.served == Some(i) && a.served == None)
    ensures Inv(a)
  {
    hide ListOk, ListMoves, Part, Accounted;
    EntsUpdate(b.ents, b.served, i, a.ents[i], a.served);
    BalanceUpdate(b.ents, b.st, i, a.ents[i], a.st);
    ListsUpdate(b.ents, b.st, i, a.ents[i], a.st);
  }

  lemma ActivateKeeps(b: Bfq, i: nat)
    requires Inv(b) && i < |b.ents|
    ensures Shaped(b) && Inv(Activate(b, i)) && OnlyOne(b, Activate(b, i), i)
    ensures Activate(b, i).served == (if b.served == Some(i) then None else b.served)
  {
    hide Activate, Effect, Sane, Inv, Shaped;
    ActivateIs(b, i);
    EffectSize(b, Activate(b, i), i, false);
    EffectKeeps(b, Activate(b, i), i);
  }

  /** No entity but one is touched. */
  ghost predicate OnlyOne(b: Bfq, a: Bfq, i: nat) {
    |a.ents| == |b.ents| && forall j :: 0 <= j < |b.ents| && j != i ==> a.ents[j] == b.ents[j]
  }

  lemma EffectSize(b: Bfq, a: Bfq, i: nat, idle: bool)
    requires Effect(b, a, i, idle)
    ensures |a.ents| == |b.ents| && i < |b.ents| && OnlyOne(b, a, i)
  {
  }

  /** Stopping an entity moves no weight. */
  lemma StoppedIs(b: Bfq, i: nat, finish: int)
    requires Inv(b) && i < |b.ents| && b.ents[i].onSt
    ensures Shaped(b) && Effect(b, Stopped(b, i, finish), i, false)
    ensures var d := Stopped(b, i, finish);
            && d.served == (if b.served == Some(i) then None else b.served)
            && d.ents[i] == b.ents[i].(spot := Off, finish := finish)
            && (forall c :: 0 <= c < CLASSES ==> forall j :: j in d.st[c].idle ==> j < |b.ents|)
  {
    At(b, i);
    DetachedIs(b, i);
    var d := Detached(b, i);
    forall c | 0 <= c < CLASSES ensures forall j :: j in d.st[c].idle ==> j < |b.ents| {
      assert Lists(b.ents, b.st[c], c) && ListMoves(b.st[c], d.st[c], i, false);
      hide ListOk, Detached;
    }
    hide Inv, Detached, ListOk, ListMoves;
  }

  /** Forgetting an entity takes its weight out of its class. */
  lemma ForgottenIs(b: Bfq, i: nat, finish: int)
    requires Inv(b) && i < |b.ents| && b.ents[i].onSt && Sane(b.ents[i])
    ensures Effect(b, Forgotten(b, i, finish), i, false)
    ensures var a := Forgotten(b, i, finish);
            && a.served == (if b.served == Some(i) then None else b.served)
            && Accounted(a.ents[i], false) && a.ents[i].spot == Off
  {
    hide Inv, Stopped, ListOk, ListMoves;
    StoppedIs(b, i, finish);
    var d, a := Stopped(b, i, finish), Forgotten(b, i, finish);
    forall c | 0 <= c < CLASSES ensures ListOk(a.st[c]) && ListMoves(b.st[c], a.st[c], i, false) {
      SameListOk(b.st[c], d.st[c], a.st[c], i, false);
    }
  }

  lemma MovesTwice(s: Service, t: Service, u: Service, i: nat)
    requires ListMoves(s, t, i, false) && ListMoves(t, u, i, true)
    ensures ListMoves(s, u, i, true)
  {
  }

  lemma NotInList(s: Service, t: Service, i: nat)
    requires ListMoves(s, t, i, false)
    ensures i !in t.idle
  {
  }

  /** Remembering one moves it to its class's idle list, weight and all. */
  lemma RememberedIs(b: Bfq, i: nat, finish: int)
    requires Inv(b) && i < |b.ents| && b.ents[i].onSt && Sane(b.ents[i])
    ensures Effect(b, Remembered(b, i, finish), i, true)
    ensures var a := Remembered(b, i, finish);
            && a.served == (if b.served == Some(i) then None else b.served)
            && Accounted(a.ents[i], false) && a.ents[i].spot == OnIdle
  {
    hide Inv, Stopped, ListOk, ListMoves, IdleInserted;
    StoppedIs(b, i, finish);
    var k, d, a := b.ents[i].cls, Stopped(b, i, finish), Remembered(b, i, finish);
    NotInList(b.st[k], d.st[k], i);
    InsertedList(d.ents, d.st[k], i, finish);
    MovesTwice(b.st[k], d.st[k], a.st[k], i);
    InsertedWeight(d.ents, d.st[k], i, finish);
  }

  lemma InsertedWeight(ents: seq<Ent>, s: Service, i: nat, finish: int)
    ensures IdleInserted(ents, s, i, finish).wsum == s.wsum
  {
  }

  lemma DeactivateKeeps(b: Bfq, i: nat, requeue: bool)
    requires Inv(b) && i < |b.ents|
    ensures Shaped(b) && Inv(Deactivate(b, i, requeue))
    ensures Deactivate(b, i, requeue).served == (if b.served == Some(i) && b.ents[i].onSt then None else b.served)
    ensures OnlyOne(b, Deactivate(b, i, requeue), i)
  {
    At(b, i);
    hide Inv, Forgotten, Remembered, Effect, LastFinish;
    var a := Deactivate(b, i, requeue);
    if b.ents[i].onSt {
      ForgottenIs(b, i, LastFinish(b, i));
      RememberedIs(b, i, LastFinish(b, i));
      EffectSize(b, a, i, a.ents[i].spot == OnIdle);
      EffectKeeps(b, a, i);
    }
  }

  lemma VtimeKeeps(b: Bfq, c: nat, vtime: int)
    requires Inv(b) && c < CLASSES
    ensures Inv(WithClass(b, c, b.st[c].(vtime := vtime)))
  {
    hide Accounted;
    var st := b.st[c := b.st[c].(vtime := vtime)];
    forall k | 0 <= k < CLASSES ensures Lists(b.ents, st[k], k) {
      assert Lists(b.ents, b.st[k], k);
    }
  }

  /** Forgetting the first idle entity of a class touches no other. */
  lemma ForgetIdleKeeps(b: Bfq, c: nat)
    requires Inv(b) && c < CLASSES
    ensures Shaped(b) && Inv(ForgetIdle(b, c))
    ensures var f := ForgetIdle(b, c);
            && f.served == b.served && |f.ents| == |b.ents|
            && (forall j :: 0 <= j < |b.ents| && b.ents[j].spot != OnIdle ==> f.ents[j] == b.ents[j])
  {
    InvShaped(b);
    assert Lists(b.ents, b.st[c], c);
    var f, s := ForgetIdle(b, c), b.st[c];
    var i := if s.first.Some? then s.first.value else 0;
    if s.first.Some? {
      assert i in s.idle && i < |b.ents| && b.ents[i].spot == OnIdle && b.ents[i].cls == c;
      At(b, i);
    }
    hide Inv, Forgotten, Effect, Lists, AnyActive;
    var vtime := if !AnyActive(b.ents, c) && s.last.Some? && s.last.value < |b.ents| && b.ents[s.last.value].finish <= s.vtime
                 then b.ents[s.last.value].finish else s.vtime;
    VtimeKeeps(b, c, vtime);
    var b1 := WithClass(b, c, s.(vtime := vtime));
    if s.first.Some? && b.ents[i].finish <= vtime {
      ForgottenIs(b1, i, b.ents[i].finish);
      ForgottenKeeps(b1, f, i);
    }
  }

  lemma ForgottenKeeps(b: Bfq, a: Bfq, i: nat)
    requires Inv(b) && Effect(b, a, i, false) && a.served == b.served && b.served != Some(i)
    requires i < |a.ents| && Accounted(a.ents[i], false) && a.ents[i].spot == Off
    ensures Inv(a) && |a.ents| == |b.ents| && forall j :: 0 <= j < |b.ents| && j != i ==> a.ents[j] == b.ents[j]
  {
    hide ListOk, ListMoves, Part, Accounted, Inv;
    EffectKeeps(b, a, i);
  }

  /** A change to an entity that moves neither its weight nor its place. */
  lemma QuietChange(b: Bfq, i: nat, e: Ent)
    requires Inv(b) && i < |b.ents| && Sane(e)
    requires e.onSt == b.ents[i].onSt && e.spot == b.ents[i].spot && e.cls == b.ents[i].cls && e.weight == b.ents[i].weight
    ensures Inv(WithEnt(b, i, e))
  {
    At(b, i);
    EntsUpdate(b.ents, b.served, i, e, b.served);
    BalanceUpdate(b.ents, b.st, i, e, b.st);
    hide ListOk, Balanced, EntsOk;
    forall c | 0 <= c < CLASSES ensures Lists(b.ents[i := e], b.st[c], c) {
      assert Lists(b.ents, b.st[c], c);
    }
  }

  lemma SameSane(e: Ent, f: Ent)
    requires Sane(e) && f == e.(start := f.start, finish := f.finish, budget := f.budget, service := f.service) && f.budget >= 0
    ensures Sane(f) && f.onSt == e.onSt && f.spot == e.spot && f.cls == e.cls && f.weight == e.weight
  {
  }

  lemma TakenIs(b: Bfq, i: nat)
    requires Inv(b) && i < |b.ents| && b.served == None && b.ents[i].spot == OnActive
    ensures Inv(WithEnt(b, i, b.ents[i].(spot := Off, service := 0)).(served := Some(i)))
  {
    At(b, i);
    var e := b.ents[i].(spot := Off, service := 0);
    EntsUpdate(b.ents, b.served, i, e, Some(i));
    BalanceUpdate(b.ents, b.st, i, e, b.st);
    hide ListOk, Balanced, EntsOk;
    forall c | 0 <= c < CLASSES ensures Lists(b.ents[i := e], b.st[c], c) {
      assert Lists(b.ents, b.st[c], c);
    }
  }

  lemma ServeKeeps(b: Bfq, i: nat, vtime: int)
    requires Inv(b) && i < |b.ents| && b.served == None && b.ents[i].spot == OnActive
    ensures Shaped(b) && Inv(Serve(b, i, vtime)) && WithinBudget(Serve(b, i, vtime))
  {
    At(b, i);
    hide Inv, ForgetIdle;
    var c := b.ents[i].cls;
    if vtime > b.st[c].vtime {
      VtimeKeeps(b, c, vtime);
      ForgetIdleKeeps(WithClass(b, c, b.st[c].(vtime := vtime)), c);
      TakenIs(ForgetIdle(WithClass(b, c, b.st[c].(vtime := vtime)), c), i);
    } else {
      TakenIs(b, i);
    }
  }

  lemma ChargedIs(b: Bfq, amount: int)
    requires Inv(b) && b.served.Some? && b.served.value < |b.ents| && Shaped(b)
    ensures Inv(Charged(b, amount)) && Charged(b, amount).served == b.served
    ensures var i := b.served.value; Charged(b, amount).ents[i] == b.ents[i].(service := b.ents[i].service + amount)
  {
    hide Inv, Advanced, Sane;
    var i := b.served.value;
    ServedFacts(b);
    var e := b.ents[i];
    var f := e.(service := e.service + amount);
    assert e.budget >= 0 by { SaneBudget(e); }
    SameSane(e, f);
    QuietChange(b, i, f);
    VtimeKeeps(WithEnt(b, i, f), e.cls, Advanced(b.st[e.cls], amount));
  }

  lemma SaneBudget(e: Ent)
    requires Sane(e)
    ensures e.budget >= 0
  {
  }

  lemma ServedFacts(b: Bfq)
    requires Inv(b) && b.served.Some?
    ensures b.served.value < |b.ents| && Shaped(b)
    ensures b.ents[b.served.value].spot == Off && b.ents[b.served.value].onSt && Sane(b.ents[b.served.value])
  {
    At(b, b.served.value);
  }

  /** Charging no more than is left of the budget keeps the queue within it. */
  lemma ChargeKeeps(b: Bfq, amount: int)
    requires Inv(b) && b.served.Some? && WithinBudget(b)
    requires 0 <= amount <= b.ents[b.served.value].budget - b.ents[b.served.value].service
    ensures b.served.value < |b.ents| && Shaped(b) && b.ents[b.served.value].cls < CLASSES
    ensures Inv(Charge(b, amount)) && WithinBudget(Charge(b, amount)) && Charge(b, amount).served == b.served
    ensures b.st[b.ents[b.served.value].cls].wsum >= b.ents[b.served.value].weight >= 0
  {
    hide Inv, Shaped, Charged, ForgetIdle, Sane;
    var i := b.served.value;
    ServedFacts(b);
    ClassHasWeight(b, i);
    ChargedIs(b, amount);
    ForgetIdleKeeps(Charged(b, amount), b.ents[i].cls);
  }

  lemma ClassHasWeight(b: Bfq, i: nat)
    requires Inv(b) && i < |b.ents| && b.ents[i].onSt
    ensures b.ents[i].cls < CLASSES && b.st[b.ents[i].cls].wsum >= b.ents[i].weight >= 0
  {
    At(b, i);
    forall j | 0 <= j < |b.ents| ensures b.ents[j].weight >= 0 {
      assert Accounted(b.ents[j], b.served == Some(j));
    }
    PartIsIn(b.ents, i, b.ents[i].cls);
  }

  /** In the middle of activation too, where a pending change takes the weight out again. */
  lemma RestartedHasWeight(b: Bfq, i: nat)
    requires Inv(b) && i < |b.ents|
    ensures Shaped(b) && |Restarted(b, i).ents| == |b.ents|
    ensures var r := Restarted(b, i);
      r.ents[i].cls < |r.st| == CLASSES && r.st[r.ents[i].cls].wsum >= r.ents[i].weight >= 0
  {
    RestartedIs(b, i);
    var r := Restarted(b, i);
    BalanceUpdate(b.ents, b.st, i, r.ents[i], r.st);
    forall j | 0 <= j < |r.ents| ensures r.ents[j].weight >= 0 {
      assert Accounted(b.ents[j], b.served == Some(j));
    }
    PartIsIn(r.ents, i, r.ents[i].cls);
  }

  // ----- Times -----------------------------------------------------------------------

  lemma DeltaIsPositive(service: int, weight: int)
    requires service >= 0 && weight > 0
    ensures Delta(service, weight) >= 0
  {
  }

  lemma ReweighKeepsStart(b: Bfq, i: nat)
    requires i < |b.ents| && b.ents[i].cls < |b.st| && b.ents[i].newCls < |b.st|
    requires !b.ents[i].changed || b.ents[i].newCls == b.ents[i].cls
    ensures |Reweigh(b, i).ents| == |b.ents| && Reweigh(b, i).ents[i].start == b.ents[i].start
  {
  }

  /** The times of an activated entity that stays in its class: it finishes no earlier than it
      starts; one that was idle or new starts no earlier than now, and one remembered no
      earlier than it had to finish; one that was served is charged what it was served; and
      one that was waiting keeps its start. */
  lemma ActivateTimes(b: Bfq, i: nat)
    requires Inv(b) && i < |b.ents| && (!b.ents[i].changed || b.ents[i].newCls == b.ents[i].cls)
    ensures Shaped(b) && |Activate(b, i).ents| == |b.ents|
    ensures var e, a, vtime := b.ents[i], Activate(b, i).ents[i], b.st[b.ents[i].cls].vtime;
            && a.start <= a.finish
            && (b.served == Some(i) ==> a.start == e.start + if e.weight > 0 then Delta(e.service, e.weight) else 0)
            && (e.spot == OnActive ==> a.start == e.start)
            && (e.spot == OnIdle ==> a.start >= e.finish)
            && (b.served != Some(i) && e.spot != OnActive ==> a.start >= vtime)
  {
    At(b, i);
    RestartedIs(b, i);
    ActivateIs(b, i);
    hide Inv, Effect, Reweigh, Delta, Lists;
    var r := Restarted(b, i);
    EffectSize(b, r, i, false);
    ReweighKeepsStart(r, i);
    var f := Reweigh(r, i).ents[i];
    if f.weight > 0 {
      DeltaIsPositive(f.budget, f.weight);
    }
  }
}
