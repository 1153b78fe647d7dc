/** Weights, classes and budgets of the fair-queueing scheduler without groups, as values. */
module BfqModel {
  import opened Requests
  import opened IdLists

  const CLASSES: nat := 3
  const LEVELS: int := 8        // priority levels within a class
  const SERVICE_SCALE: int := 0x40_0000

  /** The tree an entity is on. */
  datatype Spot = Off | OnActive | OnIdle

  /** An entity.  The `new` fields take effect when it is next activated, if `changed`. */
  datatype Ent = Ent(start: int, finish: int, budget: int, service: int,
                     weight: int, origWeight: int, newWeight: int, coeff: int,
                     ioprio: int, newIoprio: int, cls: nat, newCls: nat, changed: bool,
                     onSt: bool, spot: Spot)

  /** One class: its virtual time, its weights summed up, its idle entities by finish time and
      the two pointers into them. */
  datatype Service = Service(vtime: int, wsum: int, idle: seq<nat>, first: Option<nat>, last: Option<nat>)

  /** The scheduler: entities, classes, and the entity under service. */
  datatype Bfq = Bfq(ents: seq<Ent>, st: seq<Service>, served: Option<nat>)

  // ----- Times and weights -----------------------------------------------------------

  function Delta(service: int, weight: int): int
    requires weight > 0
  {
    service * SERVICE_SCALE / weight
  }

  function FromIoprio(ioprio: int): int { LEVELS - ioprio }

  function ToIoprio(weight: int): int { if LEVELS - weight < 0 then 0 else LEVELS - weight }

  /** The pending change of weight, priority and class, made. */
  function Reprioritized(e: Ent): Ent {
    var f :=
      if e.newWeight != e.origWeight then e.(origWeight := e.newWeight, ioprio := ToIoprio(e.newWeight))
      else if e.newIoprio != e.ioprio then e.(ioprio := e.newIoprio, origWeight := FromIoprio(e.newIoprio))
      else e.(newWeight := FromIoprio(e.ioprio), origWeight := FromIoprio(e.ioprio));
    f.(cls := f.newCls, changed := false, weight := f.origWeight * f.coeff)
  }

  // ----- The idle lists --------------------------------------------------------------

  /** Where an entity goes by its finish time: after those that finish no later. */
  function IdlePlace(ents: seq<Ent>, s: seq<nat>, finish: int): (k: nat)
    ensures k <= |s|
  {
    if s == [] || s[0] >= |ents| || ents[s[0]].finish > finish then 0 else 1 + IdlePlace(ents, s[1..], finish)
  }

  /** Takes an entity off a class's idle list; the pointers move to its neighbours. */
  function IdleRemoved(s: Service, i: nat): Service
    requires i in s.idle
  {
    var k := IndexOf(s.idle, i);
    s.(idle := DropAt(s.idle, k),
       first := if s.first == Some(i) then (if k + 1 < |s.idle| then Some(s.idle[k + 1]) else None) else s.first,
       last := if s.last == Some(i) then (if k > 0 then Some(s.idle[k - 1]) else None) else s.last)
  }

  function IdleInserted(ents: seq<Ent>, s: Service, i: nat, finish: int): Service {
    var k := IdlePlace(ents, s.idle, finish);
    var before := s.first.Some? && s.first.value < |ents| && ents[s.first.value].finish <= finish;
    var after := s.last.Some? && s.last.value < |ents| && finish <= ents[s.last.value].finish;
    s.(idle := PutAt(s.idle, k, i),
       first := if before then s.first else Some(i),
       last := if after then s.last else Some(i))
  }

  // ----- Operations ------------------------------------------------------------------

  ghost predicate Shaped(b: Bfq) {
    && |b.st| == CLASSES
    && forall i :: 0 <= i < |b.ents| ==> b.ents[i].cls < CLASSES && b.ents[i].newCls < CLASSES
  }

  function WithClass(b: Bfq, c: nat, s: Service): Bfq
    requires c < |b.st|
  {
    b.(st := b.st[c := s])
  }

  function AddWeight(b: Bfq, c: nat, w: int): Bfq
    requires c < |b.st|
  {
    WithClass(b, c, b.st[c].(wsum := b.st[c].wsum + w))
  }

  function WithEnt(b: Bfq, i: nat, e: Ent): Bfq
    requires i < |b.ents|
  {
    b.(ents := b.ents[i := e])
  }

  /** Takes an entity off whatever holds it: service, the active tree or the idle tree. */
  function Detached(b: Bfq, i: nat): (d: Bfq)
    requires i < |b.ents| && b.ents[i].cls < |b.st|
    ensures |d.st| == |b.st| && d.ents == b.ents[i := b.ents[i].(spot := Off)]
  {
    var e := b.ents[i];
    var b1 := if b.served == Some(i) then b.(served := None) else b;
    var b2 := if e.spot == OnIdle && i in b.st[e.cls].idle then WithClass(b1, e.cls, IdleRemoved(b.st[e.cls], i)) else b1;
    WithEnt(b2, i, e.(spot := Off))
  }

  /** The entity's new start time: after the service it got, or after the virtual time if it
      was idle, or now. */
  function Restart(b: Bfq, i: nat): int
    requires i < |b.ents| && b.ents[i].cls < |b.st|
  {
    var e := b.ents[i];
    var vtime := b.st[e.cls].vtime;
    if b.served == Some(i) then (if e.weight > 0 then e.start + Delta(e.service, e.weight) else e.start)
    else if e.spot == OnActive then e.start
    else if e.spot == OnIdle then (if vtime > e.finish then vtime else e.finish)
    else vtime
  }

  /** Makes a pending change, moving the weight between classes. */
  function Reweigh(b: Bfq, i: nat): Bfq
    requires i < |b.ents| && b.ents[i].cls < |b.st| && b.ents[i].newCls < |b.st|
  {
    var e := b.ents[i];
    if !e.changed then b
    else
      var f := Reprioritized(e);
      var b1 := AddWeight(AddWeight(b, e.cls, -e.weight), f.cls, f.weight);
      WithEnt(b1, i, if f.cls != e.cls then f.(start := b.st[f.cls].vtime) else f)
  }

  /** The first half of activation: off whatever holds it, counted in if it was not, and
      with its new start time. */
  function Restarted(b: Bfq, i: nat): Bfq
    requires Shaped(b) && i < |b.ents|
  {
    var e := b.ents[i];
    var b1 := Detached(b, i);
    var b2 := if b.served != Some(i) && e.spot == Off then AddWeight(b1, e.cls, e.weight) else b1;
    WithEnt(b2, i, b1.ents[i].(start := Restart(b, i), onSt := true))
  }

  /** Puts an entity on the active tree, from wherever it is. */
  function Activate(b: Bfq, i: nat): Bfq
    requires Shaped(b) && i < |b.ents|
  {
    var b1 := Reweigh(Restarted(b, i), i);
    var f := b1.ents[i];
    WithEnt(b1, i, f.(spot := OnActive, finish := if f.weight > 0 then f.start + Delta(f.budget, f.weight) else f.start))
  }

  /** Off whatever holds it, with a finish time. */
  function Stopped(b: Bfq, i: nat, finish: int): Bfq
    requires i < |b.ents| && b.ents[i].cls < |b.st|
  {
    var d := Detached(b, i);
    WithEnt(d, i, d.ents[i].(finish := finish))
  }

  /** Forgotten: its weight is taken out of its class. */
  function Forgotten(b: Bfq, i: nat, finish: int): Bfq
    requires i < |b.ents| && b.ents[i].cls < |b.st|
  {
    var b1 := Stopped(b, i, finish);
    WithEnt(AddWeight(b1, b.ents[i].cls, -b.ents[i].weight), i, b1.ents[i].(onSt := false))
  }

  /** Remembered on the idle tree. */
  function Remembered(b: Bfq, i: nat, finish: int): Bfq
    requires i < |b.ents| && b.ents[i].cls < |b.st|
  {
    var b1, c := Stopped(b, i, finish), b.ents[i].cls;
    WithEnt(WithClass(b1, c, IdleInserted(b1.ents, b1.st[c], i, finish)), i, b1.ents[i].(spot := OnIdle))
  }

  /** The finish time an entity stops with: if it was under service, by the service it got. */
  function LastFinish(b: Bfq, i: nat): int
    requires i < |b.ents|
  {
    var e := b.ents[i];
    if b.served == Some(i) && e.weight > 0 then e.start + Delta(e.service, e.weight) else e.finish
  }

  /** Takes an entity out: to the idle tree if it is to be remembered and its finish time is
      still to come, else it is forgotten. */
  function Deactivate(b: Bfq, i: nat, requeue: bool): Bfq
    requires Shaped(b) && i < |b.ents|
  {
    var finish := LastFinish(b, i);
    if !b.ents[i].onSt then b
    else if !requeue || finish <= b.st[b.ents[i].cls].vtime then Forgotten(b, i, finish)
    else Remembered(b, i, finish)
  }

  predicate AnyActive(ents: seq<Ent>, c: nat) {
    exists i :: 0 <= i < |ents| && ents[i].spot == OnActive && ents[i].cls == c
  }

  /** Forgets the idle entity that finishes first once its finish time has passed. */
  function ForgetIdle(b: Bfq, c: nat): (f: Bfq)
    requires Shaped(b) && c < CLASSES
    ensures Shaped(f) && |f.ents| == |b.ents|
  {
    var s := b.st[c];
    var vtime :=
      if !AnyActive(b.ents, c) && s.last.Some? && s.last.value < |b.ents| && b.ents[s.last.value].finish <= s.vtime
      then b.ents[s.last.value].finish else s.vtime;
    var b1 := WithClass(b, c, s.(vtime := vtime));
    if s.first.Some? && s.first.value < |b.ents| && b.ents[s.first.value].finish <= vtime
    then Forgotten(b1, s.first.value, b.ents[s.first.value].finish)
    else b1
  }

  /** The entity chosen goes under service with its budget untouched; the virtual time may
      have to be moved on first for it to be eligible. */
  function Serve(b: Bfq, i: nat, vtime: int): Bfq
    requires Shaped(b) && i < |b.ents|
  {
    var c := b.ents[i].cls;
    var b1 := if vtime > b.st[c].vtime then ForgetIdle(WithClass(b, c, b.st[c].(vtime := vtime)), c) else b;
    WithEnt(b1, i, b1.ents[i].(spot := Off, service := 0)).(served := Some(i))
  }

  /** A class's virtual time after some service, which all its weight shares. */
  function Advanced(s: Service, amount: int): int {
    s.vtime + if s.wsum > 0 then Delta(amount, s.wsum) else 0
  }

  /** Service charged to the entity under service, and its class's time moved on. */
  function Charged(b: Bfq, amount: int): (r: Bfq)
    requires Shaped(b) && b.served.Some? && b.served.value < |b.ents|
    ensures Shaped(r) && |r.ents| == |b.ents|
  {
    var i := b.served.value;
    var c := b.ents[i].cls;
    WithClass(WithEnt(b, i, b.ents[i].(service := b.ents[i].service + amount)),
              c, b.st[c].(vtime := Advanced(b.st[c], amount)))
  }

  function Charge(b: Bfq, amount: int): (r: Bfq)
    requires Shaped(b) && b.served.Some? && b.served.value < |b.ents|
    ensures Shaped(r) && |r.ents| == |b.ents|
  {
    ForgetIdle(Charged(b, amount), b.ents[b.served.value].cls)
  }

  /** A dispatch: the request's service is charged if the budget left covers it; otherwise
      the queue is to be expired. */
  function Dispatch(b: Bfq, charge: int): (Bfq, bool)
    requires Shaped(b) && b.served.Some? && b.served.value < |b.ents|
  {
    var e := b.ents[b.served.value];
    if charge > e.budget - e.service then (b, false) else (Charge(b, charge), true)
  }

  function SetBudget(b: Bfq, i: nat, budget: int): Bfq
    requires i < |b.ents|
  {
    WithEnt(b, i, b.ents[i].(budget := budget))
  }

  /** The end of a turn: what is left of the budget may be charged, the next budget is set,
      and the queue goes back to the active tree or, if it has no more requests, out. */
  function Expire(b: Bfq, full: bool, budget: int, busy: bool): Bfq
    requires Shaped(b) && b.served.Some? && b.served.value < |b.ents|
  {
    var i := b.served.value;
    var b1 := if full then Charge(b, b.ents[i].budget - b.ents[i].service) else b;
    var b2 := SetBudget(b1, i, budget);
    if busy then Activate(b2, i) else Deactivate(b2, i, true)
  }

  /** A request for another priority or class; without groups nothing asks for a weight. */
  function Change(b: Bfq, i: nat, ioprio: int, cls: nat): Bfq
    requires i < |b.ents|
  {
    WithEnt(b, i, b.ents[i].(newIoprio := ioprio, newCls := cls, changed := true))
  }

  /** A change of the boost, which takes effect with the next update of the weight. */
  function Boost(b: Bfq, i: nat, coeff: int): Bfq
    requires i < |b.ents|
  {
    WithEnt(b, i, b.ents[i].(coeff := coeff, changed := true))
  }

  /** A queue as it is allocated: no weight yet, and a pending change that will give it one. */
  function NewEnt(ioprio: int, cls: nat): Ent {
    Ent(0, 0, 0, 0, 0, 0, 0, 1, ioprio, ioprio, cls, cls, true, false, Off)
  }
}
