/** Runs of the fair-queueing scheduler. */
module BfqRuns {
  import opened Requests
  import opened BfqModel
  import opened BfqWeights

  datatype Step =
    | Busy(i: nat, budget: int)                  // a queue gets a first or another next request
    | Empty(i: nat, requeue: bool)               // a queue not under service runs out of requests
    | Pick(i: nat, vtime: int)                   // a queue goes under service
    | Send(charge: int)                          // a request of it is dispatched, or the budget is too small
    | Finish(full: bool, budget: int, busy: bool) // its turn ends
    | Raise(i: nat, budget: int, coeff: int)     // an idle queue gets a request and a weight boost
    | Alter(i: nat, ioprio: int, cls: nat)       // another priority or class is asked for
    | Unboost                                    // its weight boost ends while it is under service

  predicate Enabled(b: Bfq, st: Step) {
    match st
    case Busy(i, budget) => i < |b.ents| && b.served != Some(i) && budget >= 0
    case Empty(i, _) => i < |b.ents| && b.served != Some(i)
    case Pick(i, _) => i < |b.ents| && b.served == None && b.ents[i].spot == OnActive
    case Send(charge) => b.served.Some? && charge >= 0
    case Finish(_, budget, _) => b.served.Some? && budget >= 0
    case Raise(i, budget, coeff) =>
      i < |b.ents| && b.served != Some(i) && b.ents[i].spot != OnActive && b.ents[i].coeff == 1 && budget >= 0 && coeff >= 1
    case Alter(i, ioprio, cls) => i < |b.ents| && 0 <= ioprio < LEVELS && cls < CLASSES
    case Unboost => b.served.Some? && b.served.value < |b.ents| && b.ents[b.served.value].coeff > 1
  }

  ghost function Next(b: Bfq, st: Step): Bfq
    requires Shaped(b) && (b.served.Some? ==> b.served.value < |b.ents|) && Enabled(b, st)
  {
    match st
    case Busy(i, budget) => Activate(SetBudget(b, i, budget), i)
    case Empty(i, requeue) => Deactivate(b, i, requeue)
    case Pick(i, vtime) => Serve(b, i, vtime)
    case Send(charge) => Dispatch(b, charge).0
    case Finish(full, budget, busy) => Expire(b, full, budget, busy)
    case Raise(i, budget, coeff) => Activate(Boost(SetBudget(b, i, budget), i, coeff), i)
    case Alter(i, ioprio, cls) => Change(b, i, ioprio, cls)
    case Unboost => Reweigh(Boost(b, b.served.value, 1), b.served.value)
  }

  /** Every entity off every tree, and no weight anywhere. */
  ghost predicate Initial(b: Bfq) {
    && b.served == None && |b.st| == CLASSES
    && (forall i :: 0 <= i < |b.ents| ==> Sane(b.ents[i]) && !b.ents[i].onSt && b.ents[i].spot == Off)
    && (forall c :: 0 <= c < CLASSES ==> b.st[c].wsum == 0 && b.st[c].idle == [] && b.st[c].first == None && b.st[c].last == None)
  }

  lemma {:induction false} NoWeight(ents: seq<Ent>, c: nat)
    requires forall i :: 0 <= i < |ents| ==> !ents[i].onSt
    ensures WeightIn(ents, c) == 0
  {
    if ents != [] {
      NoWeight(ents[..|ents| - 1], c);
    }
  }

  lemma InitialInv(b: Bfq)
    requires Initial(b)
    ensures Inv(b) && WithinBudget(b)
  {
    forall c | 0 <= c < CLASSES ensures b.st[c].wsum == WeightIn(b.ents, c) {
      NoWeight(b.ents, c);
    }
  }

  /** All that is kept. */
  ghost predicate Good(b: Bfq) { Inv(b) && WithinBudget(b) }

  lemma GoodShape(b: Bfq)
    requires Good(b)
    ensures Shaped(b) && (b.served.Some? ==> b.served.value < |b.ents|)
  {
    InvShaped(b);
  }

  lemma OthersWithin(b: Bfq, a: Bfq, i: nat)
    requires WithinBudget(b) && OnlyOne(b, a, i) && a.served == b.served && b.served != Some(i)
    ensures WithinBudget(a)
  {
  }

  lemma BudgetKeeps(b: Bfq, i: nat, budget: int)
    requires Inv(b) && i < |b.ents| && budget >= 0
    ensures Inv(SetBudget(b, i, budget)) && OnlyOne(b, SetBudget(b, i, budget), i)
  {
    At(b, i);
    hide Inv, Lists, WeightIn;
    SameSane(b.ents[i], b.ents[i].(budget := budget));
    QuietChange(b, i, b.ents[i].(budget := budget));
  }

  lemma BusyKeeps(b: Bfq, i: nat, budget: int)
    requires Good(b) && Enabled(b, Busy(i, budget))
    ensures Shaped(b) && Good(Activate(SetBudget(b, i, budget), i))
  {
    hide Inv, Activate, SetBudget;
    GoodShape(b);
    BudgetKeeps(b, i, budget);
    var b1 := SetBudget(b, i, budget);
    assert b1.served == b.served by { BudgetServed(b, i, budget); }
    ActivateKeeps(b1, i);
    OthersWithin(b, b1, i);
    OthersWithin(b1, Activate(b1, i), i);
  }

  lemma BudgetServed(b: Bfq, i: nat, budget: int)
    requires i < |b.ents|
    ensures SetBudget(b, i, budget).served == b.served
  {
  }

  lemma EmptyKeeps(b: Bfq, i: nat, requeue: bool)
    requires Good(b) && Enabled(b, Empty(i, requeue))
    ensures Shaped(b) && Good(Deactivate(b, i, requeue))
  {
    hide Inv, Deactivate;
    GoodShape(b);
    DeactivateKeeps(b, i, requeue);
    OthersWithin(b, Deactivate(b, i, requeue), i);
  }

  /** A request is only charged if the budget left covers it. */
  lemma SendKeeps(b: Bfq, charge: int)
    requires Good(b) && Enabled(b, Send(charge))
    ensures Shaped(b) && b.served.value < |b.ents| && Good(Dispatch(b, charge).0)
  {
    hide Inv, Charge;
    GoodShape(b);
    var e := b.ents[b.served.value];
    if charge <= e.budget - e.service {
      ChargeKeeps(b, charge);
    }
  }

  lemma FinishKeeps(b: Bfq, full: bool, budget: int, busy: bool)
    requires Good(b) && Enabled(b, Finish(full, budget, busy))
    ensures Shaped(b) && b.served.value < |b.ents| && Good(Expire(b, full, budget, busy))
    ensures Expire(b, full, budget, busy).served == None
  {
    hide Inv, Charge, SetBudget, Activate, Deactivate;
    GoodShape(b);
    var i := b.served.value;
    var left := b.ents[i].budget - b.ents[i].service;
    ChargeKeeps(b, left);
    var b1 := if full then Charge(b, left) else b;
    BudgetKeeps(b1, i, budget);
    BudgetServed(b1, i, budget);
    var b2 := SetBudget(b1, i, budget);
    ServedFacts(b2);
    ActivateKeeps(b2, i);
    DeactivateKeeps(b2, i, true);
  }

  lemma AlterKeeps(b: Bfq, st: Step)
    requires Good(b) && st.Alter? && Enabled(b, st)
    ensures Good(Change(b, st.i, st.ioprio, st.cls))
  {
    At(b, st.i);
    hide Inv, Lists, WeightIn;
    var e := b.ents[st.i];
    QuietChange(b, st.i, e.(newIoprio := st.ioprio, newCls := st.cls, changed := true));
  }

  /** A boost moves no weight by itself. */
  lemma BoostKeeps(b: Bfq, i: nat, coeff: int)
    requires Inv(b) && i < |b.ents| && coeff >= 1
    ensures Inv(Boost(b, i, coeff)) && OnlyOne(b, Boost(b, i, coeff), i) && Boost(b, i, coeff).served == b.served
  {
    At(b, i);
    hide Inv, Lists, WeightIn;
    QuietChange(b, i, b.ents[i].(coeff := coeff, changed := true));
  }

  lemma RaiseKeeps(b: Bfq, i: nat, budget: int, coeff: int)
    requires Good(b) && Enabled(b, Raise(i, budget, coeff))
    ensures Shaped(b) && Good(Next(b, Raise(i, budget, coeff)))
  {
    hide Inv, Activate, SetBudget, Boost, Shaped;
    GoodShape(b);
    BudgetKeeps(b, i, budget);
    BudgetServed(b, i, budget);
    var b1 := SetBudget(b, i, budget);
    BoostKeeps(b1, i, coeff);
    var b2 := Boost(b1, i, coeff);
    ActivateKeeps(b2, i);
    OthersWithin(b, b1, i);
    OthersWithin(b1, b2, i);
    OthersWithin(b2, Activate(b2, i), i);
  }

  lemma UnboostKeeps(b: Bfq)
    requires Good(b) && Enabled(b, Unboost)
    ensures Shaped(b) && Good(Next(b, Unboost))
  {
    GoodShape(b);
    ServedFacts(b);
    var i := b.served.value;
    BoostKeeps(b, i, 1);
    ReweighServed(Boost(b, i, 1), i);
  }

  lemma ReweighServed(b: Bfq, i: nat)
    requires Inv(b) && b.served == Some(i) && WithinBudget(b)
    ensures i < |b.ents| && b.ents[i].cls < |b.st| && b.ents[i].newCls < |b.st|
    ensures Inv(Reweigh(b, i)) && WithinBudget(Reweigh(b, i))
  {
    ServedFacts(b);
    var r := Reweigh(b, i);
    ReweighIs(b, i);
    forall c | 0 <= c < CLASSES ensures ListOk(r.st[c]) && ListMoves(b.st[c], r.st[c], i, false) {
      assert Lists(b.ents, b.st[c], c);
    }
    hide Inv, ListOk, ListMoves, Part, Reweigh;
    EffectKeeps(b, r, i);
  }

  /** Every operation keeps the sums, the lists and the budgets. */
  lemma StepKeeps(b: Bfq, st: Step)
    requires Good(b) && Enabled(b, st)
    ensures Shaped(b) && (b.served.Some? ==> b.served.value < |b.ents|) && Good(Next(b, st))
  {
    GoodShape(b);
    hide Inv, WithinBudget, Shaped, Activate, Deactivate, Serve, Dispatch, Expire, Change, Boost, Reweigh;
    match st {
      case Busy(i, budget) => BusyKeeps(b, i, budget);
      case Empty(i, requeue) => EmptyKeeps(b, i, requeue);
      case Pick(i, vtime) => ServeKeeps(b, i, vtime);
      case Send(charge) => SendKeeps(b, charge);
      case Finish(full, budget, busy) => FinishKeeps(b, full, budget, busy);
      case Raise(i, budget, coeff) => RaiseKeeps(b, i, budget, coeff);
      case Alter(_, _, _) => AlterKeeps(b, st);
      case Unboost => UnboostKeeps(b);
    }
  }

  ghost predicate IsRun(b: Bfq, steps: seq<Step>)
    decreases |steps|
  {
    steps == [] ||
    (Shaped(b) && (b.served.Some? ==> b.served.value < |b.ents|) && Enabled(b, steps[0]) && IsRun(Next(b, steps[0]), steps[1..]))
  }

  ghost function RunTo(b: Bfq, steps: seq<Step>): Bfq
    requires IsRun(b, steps)
    decreases |steps|
  {
    if steps == [] then b else RunTo(Next(b, steps[0]), steps[1..])
  }

  lemma {:induction false} RunsKeep(b: Bfq, steps: seq<Step>)
    requires Good(b) && IsRun(b, steps)
    ensures Good(RunTo(b, steps))
    decreases |steps|
  {
    hide Good, Next, Enabled, Shaped;
    if steps != [] {
      StepKeeps(b, steps[0]);
      RunsKeep(Next(b, steps[0]), steps[1..]);
    }
  }

  /** What a reader of the counters may rely on in any state. */
  ghost predicate Sound(b: Bfq) {
    && |b.st| == CLASSES
    // a class's sum is the weight of its entities on a tree or under service
    && (forall c :: 0 <= c < CLASSES ==> b.st[c].wsum == WeightIn(b.ents, c) && b.st[c].wsum >= 0)
    && (forall i :: 0 <= i < |b.ents| ==> (b.ents[i].onSt <==> b.ents[i].spot != Off || b.served == Some(i)))
    // no entity weighs more than its class, so no sum is ever taken below zero
    && (forall i :: 0 <= i < |b.ents| && b.ents[i].onSt ==>
          b.ents[i].cls < CLASSES && 0 <= b.ents[i].weight <= b.st[b.ents[i].cls].wsum)
    // the budget left of the queue under service is never negative
    && (b.served.Some? ==> b.served.value < |b.ents| && b.ents[b.served.value].service <= b.ents[b.served.value].budget)
  }

  lemma GoodIsSound(b: Bfq)
    requires Good(b)
    ensures Sound(b)
  {
    forall i | 0 <= i < |b.ents|
      ensures b.ents[i].weight >= 0 && (b.ents[i].onSt <==> b.ents[i].spot != Off || b.served == Some(i))
      ensures b.ents[i].onSt ==> b.ents[i].cls < CLASSES && 0 <= b.ents[i].weight <= b.st[b.ents[i].cls].wsum
    {
      At(b, i);
      if b.ents[i].onSt {
        ClassHasWeight(b, i);
      }
    }
    forall c | 0 <= c < CLASSES ensures b.st[c].wsum >= 0 {
      SumIsNotNegative(b.ents, c);
    }
  }

  /** In every state of every run. */
  lemma WeightsConserved(b: Bfq, steps: seq<Step>)
    requires Initial(b) && IsRun(b, steps)
    ensures Sound(RunTo(b, steps))
  {
    hide IsRun, RunTo, Sound, Inv;
    InitialInv(b);
    RunsKeep(b, steps);
    GoodIsSound(RunTo(b, steps));
  }
}
