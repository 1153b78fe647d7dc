/** Weights and priorities in use against those asked for: when a request for another priority
    takes effect, and when a queue can end up with no weight. */
module BfqTuning {
  import opened Requests
  import opened BfqModel
  import opened BfqWeights
  import opened BfqRuns

  /** An entity with its pending change made, if there is one. */
  function Made(e: Ent): Ent { if e.changed then Reprioritized(e) else e }

  /** The same weights and priorities; if on a tree or under service now, then before too. */
  predicate SameTuning(e: Ent, f: Ent) {
    && f.weight == e.weight && f.origWeight == e.origWeight && f.newWeight == e.newWeight && f.coeff == e.coeff
    && f.ioprio == e.ioprio && f.newIoprio == e.newIoprio && f.changed == e.changed
    && (f.onSt ==> e.onSt)
  }

  ghost predicate Untouched(b: Bfq, a: Bfq) {
    |a.ents| == |b.ents| && forall j :: 0 <= j < |b.ents| ==> SameTuning(b.ents[j], a.ents[j])
  }

  /** Only entity `i` has its change made. */
  ghost predicate MadeOne(b: Bfq, a: Bfq, i: nat) {
    && i < |b.ents| == |a.ents|
    && (forall j :: 0 <= j < |b.ents| && j != i ==> SameTuning(b.ents[j], a.ents[j]))
    && SameTuning(Made(b.ents[i]).(onSt := true), a.ents[i]) && !a.ents[i].changed
  }

  // ----- What each operation does to them --------------------------------------------

  lemma StoppedTuning(b: Bfq, i: nat, finish: int)
    requires i < |b.ents| && b.ents[i].cls < |b.st|
    ensures Untouched(b, Stopped(b, i, finish))
  {
  }

  lemma DeactivateTuning(b: Bfq, i: nat, requeue: bool)
    requires Shaped(b) && i < |b.ents|
    ensures Untouched(b, Deactivate(b, i, requeue))
  {
    hide Stopped, LastFinish, IdleInserted;
    StoppedTuning(b, i, LastFinish(b, i));
  }

  lemma ForgetIdleTuning(b: Bfq, c: nat)
    requires Shaped(b) && c < CLASSES
    ensures Untouched(b, ForgetIdle(b, c))
  {
    hide Stopped, AnyActive;
    var s := b.st[c];
    if s.first.Some? && s.first.value < |b.ents| {
      var i := s.first.value;
      forall st: seq<Service> | |st| == |b.st| ensures Untouched(b, Stopped(b.(st := st), i, b.ents[i].finish)) {
        StoppedTuning(b.(st := st), i, b.ents[i].finish);
      }
    }
  }

  lemma ChargeTuning(b: Bfq, amount: int)
    requires Shaped(b) && b.served.Some? && b.served.value < |b.ents|
    ensures Untouched(b, Charge(b, amount))
  {
    hide ForgetIdle, Advanced;
    ForgetIdleTuning(Charged(b, amount), b.ents[b.served.value].cls);
  }

  lemma ServeTuning(b: Bfq, i: nat, vtime: int)
    requires Shaped(b) && i < |b.ents|
    ensures Untouched(b, Serve(b, i, vtime))
  {
    hide ForgetIdle;
    var c := b.ents[i].cls;
    if vtime > b.st[c].vtime {
      ForgetIdleTuning(WithClass(b, c, b.st[c].(vtime := vtime)), c);
    }
  }

  lemma ActivateTuning(b: Bfq, i: nat)
    requires Shaped(b) && i < |b.ents|
    ensures MadeOne(b, Activate(b, i), i)
  {
    hide Restart, IdleRemoved, Delta;
  }

  lemma ReweighTuning(b: Bfq, i: nat)
    requires Shaped(b) && i < |b.ents| && b.ents[i].onSt
    ensures MadeOne(b, Reweigh(b, i), i)
  {
  }

  // ----- Steps, seen from one entity -------------------------------------------------

  /** Nothing changes, or the pending change is made, perhaps with a boost of `coeff`. */
  predicate Turns(e: Ent, f: Ent, coeff: int) {
    || SameTuning(e, f)
    || (!f.changed && SameTuning(Made(e).(onSt := true), f))
    || (!f.changed && SameTuning(Made(e.(coeff := coeff, changed := true)).(onSt := true), f))
  }

  function Asked(e: Ent, ioprio: int, cls: nat): Ent { e.(newIoprio := ioprio, newCls := cls, changed := true) }

  lemma UntouchedThenMade(b: Bfq, m: Bfq, a: Bfq, i: nat)
    requires Untouched(b, m) && MadeOne(m, a, i)
    ensures MadeOne(b, a, i)
  {
    forall j | 0 <= j < |b.ents| && j != i ensures SameTuning(b.ents[j], a.ents[j]) {
      assert SameTuning(b.ents[j], m.ents[j]) && SameTuning(m.ents[j], a.ents[j]);
    }
    assert SameTuning(b.ents[i], m.ents[i]);
    SameMade(b.ents[i], m.ents[i]);
  }

  lemma SameMade(e: Ent, f: Ent)
    requires SameTuning(e, f)
    ensures SameTuning(Made(e).(onSt := true), Made(f).(onSt := true))
  {
  }

  lemma ExpireTuning(b: Bfq, full: bool, budget: int, busy: bool)
    requires Good(b) && Enabled(b, Finish(full, budget, busy)) && Shaped(b) && b.served.value < |b.ents|
    ensures var a := Expire(b, full, budget, busy); Untouched(b, a) || MadeOne(b, a, b.served.value)
  {
    hide Charge, Activate, Deactivate, Inv, Untouched, MadeOne;
    var i := b.served.value;
    var b1 := if full then Charge(b, b.ents[i].budget - b.ents[i].service) else b;
    var b2 := SetBudget(b1, i, budget);
    assert Untouched(b, b1) by {
      if full { ChargeTuning(b, b.ents[i].budget - b.ents[i].service); } else { UntouchedSelf(b); }
    }
    assert Untouched(b, b2) by { BudgetTuning(b1, i, budget); UntouchedTwice(b, b1, b2); }
    if busy {
      ActivateTuning(b2, i);
      UntouchedThenMade(b, b2, Activate(b2, i), i);
    } else {
      DeactivateTuning(b2, i, true);
      UntouchedTwice(b, b2, Deactivate(b2, i, true));
    }
  }

  lemma UntouchedSelf(b: Bfq)
    ensures Untouched(b, b)
  {
  }

  lemma UntouchedTwice(b: Bfq, m: Bfq, a: Bfq)
    requires Untouched(b, m) && Untouched(m, a)
    ensures Untouched(b, a)
  {
    forall j | 0 <= j < |b.ents| ensures SameTuning(b.ents[j], a.ents[j]) {
      assert SameTuning(b.ents[j], m.ents[j]) && SameTuning(m.ents[j], a.ents[j]);
    }
  }

  lemma BudgetTuning(b: Bfq, i: nat, budget: int)
    requires i < |b.ents|
    ensures Untouched(b, SetBudget(b, i, budget))
  {
  }

  lemma RaiseTuning(b: Bfq, i: nat, budget: int, coeff: int)
    requires Shaped(b) && i < |b.ents|
    ensures MadeOne(Boost(b, i, coeff), Activate(Boost(SetBudget(b, i, budget), i, coeff), i), i)
  {
    hide Activate, MadeOne;
    var b1 := Boost(SetBudget(b, i, budget), i, coeff);
    ActivateTuning(b1, i);
    UntouchedThenMade(Boost(b, i, coeff), b1, Activate(b1, i), i);
  }

  lemma MadeTurns(b: Bfq, a: Bfq, i: nat, j: nat)
    requires MadeOne(b, a, i) && j < |b.ents|
    ensures Turns(b.ents[j], a.ents[j], 1)
  {
  }

  lemma BoostTurns(b: Bfq, a: Bfq, i: nat, coeff: int, j: nat)
    requires i < |b.ents| && MadeOne(Boost(b, i, coeff), a, i) && j < |b.ents|
    ensures Turns(b.ents[j], a.ents[j], coeff)
  {
  }

  /** What a step does to an entity, unless it asks for another priority of it. */
  lemma StepTurns(b: Bfq, st: Step, j: nat) returns (coeff: int)
    requires Good(b) && Enabled(b, st) && j < |b.ents|
    ensures Shaped(b) && (b.served.Some? ==> b.served.value < |b.ents|) && |Next(b, st).ents| == |b.ents|
    ensures coeff >= 1
    ensures if st.Alter? && st.i == j then Next(b, st).ents[j] == Asked(b.ents[j], st.ioprio, st.cls)
            else Turns(b.ents[j], Next(b, st).ents[j], coeff)
  {
    hide Inv, Activate, Deactivate, Serve, Charge, Expire, Reweigh, Turns, MadeOne, Shaped;
    GoodShape(b);
    coeff := 1;
    match st {
      case Busy(i, budget) =>
        BudgetTuning(b, i, budget);
        BudgetKeeps(b, i, budget);
        InvShaped(SetBudget(b, i, budget));
        ActivateTuning(SetBudget(b, i, budget), i);
        UntouchedThenMade(b, SetBudget(b, i, budget), Next(b, st), i);
        MadeLength(b, Next(b, st), i);
        MadeTurns(b, Next(b, st), i, j);
      case Empty(i, requeue) =>
        DeactivateTuning(b, i, requeue);
        SameTurns(b, Next(b, st), j);
      case Pick(i, vtime) =>
        ServeTuning(b, i, vtime);
        SameTurns(b, Next(b, st), j);
      case Send(charge) =>
        ChargeTuning(b, charge);
        UntouchedSelf(b);
        SameTurns(b, Next(b, st), j);
      case Finish(full, budget, busy) =>
        ExpireTuning(b, full, budget, busy);
        if Untouched(b, Next(b, st)) {
          SameTurns(b, Next(b, st), j);
        } else {
          MadeLength(b, Next(b, st), b.served.value);
          MadeTurns(b, Next(b, st), b.served.value, j);
        }
      case Raise(i, budget, c) =>
        coeff := c;
        RaiseTuning(b, i, budget, c);
        MadeLength(Boost(b, i, c), Next(b, st), i);
        BoostTurns(b, Next(b, st), i, c, j);
      case Alter(i, ioprio, cls) =>
        if i != j {
          OtherTurns(b.ents[j]);
        }
      case Unboost =>
        ServedFacts(b);
        BoostShaped(b, b.served.value, 1);
        ReweighTuning(Boost(b, b.served.value, 1), b.served.value);
        MadeLength(Boost(b, b.served.value, 1), Next(b, st), b.served.value);
        BoostTurns(b, Next(b, st), b.served.value, 1, j);
    }
  }

  lemma BoostShaped(b: Bfq, i: nat, coeff: int)
    requires Shaped(b) && i < |b.ents|
    ensures Shaped(Boost(b, i, coeff))
  {
  }

  lemma MadeLength(b: Bfq, a: Bfq, i: nat)
    requires MadeOne(b, a, i)
    ensures |a.ents| == |b.ents|
  {
  }

  lemma SameTurns(b: Bfq, a: Bfq, j: nat)
    requires Untouched(b, a) && j < |b.ents|
    ensures |a.ents| == |b.ents| && Turns(b.ents[j], a.ents[j], 1)
  {
  }

  lemma OtherTurns(e: Ent)
    ensures Turns(e, e, 1)
  {
  }

  // ----- The boost -------------------------------------------------------------------

  /** The weight in use is the unboosted one times the boost. */
  predicate Boosted(e: Ent) { e.weight == e.origWeight * e.coeff }

  ghost predicate AllBoosted(b: Bfq) { forall i :: 0 <= i < |b.ents| ==> Boosted(b.ents[i]) }

  lemma TurnKeepsBoosted(e: Ent, f: Ent, coeff: int)
    requires Boosted(e) && Turns(e, f, coeff)
    ensures Boosted(f)
  {
  }

  lemma StepKeepsBoosted(b: Bfq, st: Step)
    requires Good(b) && AllBoosted(b) && Enabled(b, st)
    ensures Shaped(b) && (b.served.Some? ==> b.served.value < |b.ents|) && AllBoosted(Next(b, st))
  {
    hide Good, Next, Turns, Enabled;
    assert Shaped(b) && (b.served.Some? ==> b.served.value < |b.ents|) && |Next(b, st).ents| == |b.ents| by {
      StepLength(b, st);
    }
    forall j | 0 <= j < |b.ents| ensures Boosted(Next(b, st).ents[j]) {
      var coeff := StepTurns(b, st, j);
      if !(st.Alter? && st.i == j) {
        TurnKeepsBoosted(b.ents[j], Next(b, st).ents[j], coeff);
      }
    }
  }

  lemma StepLength(b: Bfq, st: Step)
    requires Good(b) && Enabled(b, st)
    ensures Shaped(b) && (b.served.Some? ==> b.served.value < |b.ents|) && |Next(b, st).ents| == |b.ents|
  {
    GoodShape(b);
    if |b.ents| > 0 {
      var coeff := StepTurns(b, st, 0);
    }
  }

  lemma {:induction false} RunsKeepBoosted(b: Bfq, steps: seq<Step>)
    requires Good(b) && AllBoosted(b) && IsRun(b, steps)
    ensures Good(RunTo(b, steps)) && AllBoosted(RunTo(b, steps))
    decreases |steps|
  {
    hide Good, Next, Enabled, Shaped, AllBoosted;
    if steps != [] {
      StepKeeps(b, steps[0]);
      StepKeepsBoosted(b, steps[0]);
      RunsKeepBoosted(Next(b, steps[0]), steps[1..]);
    }
  }

  /** In every run, at every request sent: the assertion on the boost of the queue under
      service holds when it is made. */
  lemma BoostIsRight(b: Bfq, steps: seq<Step>, charge: int)
    requires Initial(b) && AllBoosted(b) && IsRun(b, steps) && Enabled(RunTo(b, steps), Send(charge))
    ensures var s := RunTo(b, steps);
      && Shaped(s) && s.served.value < |s.ents|
      && var e := Dispatch(s, charge).0.ents;
      && |e| == |s.ents| && e[s.served.value].weight == e[s.served.value].origWeight * e[s.served.value].coeff
  {
    hide IsRun, RunTo, Good, Dispatch, AllBoosted;
    assert Good(b) by { InitialIsGood(b); }
    RunsKeepBoosted(b, steps);
    var s := RunTo(b, steps);
    StepLength(s, Send(charge));
    StepKeepsBoosted(s, Send(charge));
    assert Boosted(Next(s, Send(charge)).ents[s.served.value]) by { BoostedAt(Next(s, Send(charge)), s.served.value); }
  }

  lemma InitialIsGood(b: Bfq)
    requires Initial(b)
    ensures Good(b)
  {
    InitialInv(b);
  }

  lemma BoostedAt(b: Bfq, i: nat)
    requires AllBoosted(b) && i < |b.ents|
    ensures Boosted(b.ents[i])
  {
  }

  // ----- A weight of nothing ---------------------------------------------------------

  /** Weights that will never come to nothing; or none yet, on no tree, with the priority
      unchanged since the queue was allocated. */
  predicate Weighty(e: Ent) {
    || (e.origWeight >= 1 && e.newWeight >= 1)
    || (e.origWeight == 0 && e.newWeight == 0 && e.newIoprio == e.ioprio && e.changed && !e.onSt)
  }

  ghost predicate AllWeighty(b: Bfq) { forall i :: 0 <= i < |b.ents| ==> Weighty(b.ents[i]) }

  /** Another priority is asked for of a queue that never had a weight. */
  predicate TooEarly(b: Bfq, st: Step) {
    st.Alter? && st.i < |b.ents| && b.ents[st.i].newWeight == 0 && st.ioprio != b.ents[st.i].ioprio
  }

  lemma MadeIsWeighty(e: Ent)
    requires Sane(e) && Weighty(e) && e.changed
    ensures Made(e).origWeight >= 1 && Made(e).newWeight >= 1
  {
  }

  lemma TurnKeepsWeighty(e: Ent, f: Ent, coeff: int)
    requires Sane(e) && Weighty(e) && Turns(e, f, coeff)
    ensures Weighty(f)
  {
    if e.changed {
      MadeIsWeighty(e);
    }
    MadeIsWeighty(e.(coeff := if coeff >= 1 then coeff else 1, changed := true));
  }

  lemma AskedIsWeighty(e: Ent, ioprio: int, cls: nat)
    requires Weighty(e)
    ensures Weighty(Asked(e, ioprio, cls)) <==> !(e.newWeight == 0 && ioprio != e.ioprio)
  {
  }

  lemma GoodIsSane(b: Bfq, j: nat)
    requires Good(b) && j < |b.ents|
    ensures Sane(b.ents[j])
  {
    At(b, j);
  }

  /** A step leaves every queue with weights that will not come to nothing exactly if it does
      not ask for another priority too early. */
  lemma StepWeightyIff(b: Bfq, st: Step)
    requires Good(b) && AllWeighty(b) && Enabled(b, st)
    ensures Shaped(b) && (b.served.Some? ==> b.served.value < |b.ents|)
    ensures AllWeighty(Next(b, st)) <==> !TooEarly(b, st)
  {
    hide Good, Next, Turns, Sane, Weighty;
    StepLength(b, st);
    forall j | 0 <= j < |b.ents|
      ensures Weighty(Next(b, st).ents[j]) <==> !(st.Alter? && st.i == j && TooEarly(b, st))
    {
      var coeff := StepTurns(b, st, j);
      GoodIsSane(b, j);
      if st.Alter? && st.i == j {
        AskedIsWeighty(b.ents[j], st.ioprio, st.cls);
      } else {
        TurnKeepsWeighty(b.ents[j], Next(b, st).ents[j], coeff);
      }
    }
    if TooEarly(b, st) {
      assert !Weighty(Next(b, st).ents[st.i]);
    }
  }

  /** A run that asks for no other priority too early. */
  ghost predicate Patient(b: Bfq, steps: seq<Step>)
    requires IsRun(b, steps)
    decreases |steps|
  {
    steps == [] || (!TooEarly(b, steps[0]) && Patient(Next(b, steps[0]), steps[1..]))
  }

  lemma {:induction false} PatientRuns(b: Bfq, steps: seq<Step>)
    requires Good(b) && AllBoosted(b) && AllWeighty(b) && IsRun(b, steps) && Patient(b, steps)
    ensures var s := RunTo(b, steps); Good(s) && AllBoosted(s) && AllWeighty(s)
    decreases |steps|
  {
    hide Good, Next, Enabled, Shaped, AllBoosted, AllWeighty, TooEarly;
    if steps != [] {
      StepKeeps(b, steps[0]);
      StepKeepsBoosted(b, steps[0]);
      StepWeightyIff(b, steps[0]);
      PatientRuns(Next(b, steps[0]), steps[1..]);
    }
  }

  /** Every queue on a tree or under service has a weight, and so has its class. */
  ghost predicate HaveWeight(b: Bfq) {
    |b.st| == CLASSES && forall i :: 0 <= i < |b.ents| && b.ents[i].onSt ==>
      b.ents[i].cls < CLASSES && 1 <= b.ents[i].weight <= b.st[b.ents[i].cls].wsum
  }

  lemma WeightyHaveWeight(b: Bfq)
    requires Good(b) && AllBoosted(b) && AllWeighty(b)
    ensures HaveWeight(b)
  {
    GoodShape(b);
    hide Shaped;
    forall i | 0 <= i < |b.ents| && b.ents[i].onSt
      ensures b.ents[i].cls < CLASSES && 1 <= b.ents[i].weight <= b.st[b.ents[i].cls].wsum
    {
      ClassHasWeight(b, i);
      GoodIsSane(b, i);
      Product(b.ents[i].origWeight, b.ents[i].coeff);
    }
  }

  /** In every state of every such run from queues as they are allocated: the assertions that
      an entity whose finish time is computed has a weight, and that a class that is charged
      has, cannot fail. */
  lemma NoWeightIsLost(b: Bfq, steps: seq<Step>)
    requires Initial(b) && IsRun(b, steps) && Patient(b, steps)
    requires forall i :: 0 <= i < |b.ents| ==> b.ents[i] == NewEnt(b.ents[i].ioprio, b.ents[i].cls)
    ensures HaveWeight(RunTo(b, steps))
  {
    hide IsRun, RunTo, Patient, Good;
    InitialIsGood(b);
    NewIsWeighty(b);
    PatientRuns(b, steps);
    WeightyHaveWeight(RunTo(b, steps));
  }

  lemma NewIsWeighty(b: Bfq)
    requires forall i :: 0 <= i < |b.ents| ==> b.ents[i] == NewEnt(b.ents[i].ioprio, b.ents[i].cls)
    ensures AllBoosted(b) && AllWeighty(b)
  {
  }

  /** The run that loses a weight: another priority for a queue just allocated, its first
      activation, any further change, and the next activation. */
  function Losing(i: nat, ioprio: int, cls: nat): seq<Step> {
    [Busy(i, 0), Alter(i, ioprio, cls), Busy(i, 0)]
  }

  /** A weight of nothing on the active tree. */
  ghost predicate Weightless(b: Bfq) {
    exists i :: 0 <= i < |b.ents| && b.ents[i].spot == OnActive && b.ents[i].onSt && b.ents[i].weight == 0
  }

  lemma BusyMakes(b: Bfq, i: nat, budget: int)
    requires Good(b) && Enabled(b, Busy(i, budget))
    ensures Shaped(b) && |Next(b, Busy(i, budget)).ents| == |b.ents|
    ensures var a := Next(b, Busy(i, budget));
      && a.ents[i].spot == OnActive && a.ents[i].onSt && SameTuning(Made(b.ents[i]).(onSt := true), a.ents[i])
      && a.served == b.served
  {
    hide Inv, Activate, Shaped;
    GoodShape(b);
    BudgetTuning(b, i, budget);
    BudgetKeeps(b, i, budget);
    var b1 := SetBudget(b, i, budget);
    InvShaped(b1);
    ActivateTuning(b1, i);
    ActivateIs(b1, i);
    UntouchedThenMade(b, b1, Activate(b1, i), i);
  }

  lemma OneStep(b: Bfq, st: Step, rest: seq<Step>)
    requires Shaped(b) && (b.served.Some? ==> b.served.value < |b.ents|) && Enabled(b, st) && IsRun(Next(b, st), rest)
    ensures IsRun(b, [st] + rest) && RunTo(b, [st] + rest) == RunTo(Next(b, st), rest)
    ensures Patient(b, [st] + rest) <==> !TooEarly(b, st) && Patient(Next(b, st), rest)
  {
    hide Next, Enabled, Shaped, TooEarly;
    assert ([st] + rest)[1..] == rest;
  }

  /** A priority asked for too early loses the queue its weight. */
  lemma EarlyLoses(b: Bfq, i: nat, ioprio: int, cls: nat)
    requires Good(b) && AllWeighty(b) && Enabled(b, Alter(i, ioprio, cls)) && TooEarly(b, Alter(i, ioprio, cls))
    ensures Shaped(b) && (b.served.Some? ==> b.served.value < |b.ents|)
    ensures var a, steps := Next(b, Alter(i, ioprio, cls)), Losing(i, ioprio, cls);
      IsRun(a, steps) && Patient(a, steps) && Weightless(RunTo(a, steps))
  {
    hide Good, Shaped, Inv, Activate, SetBudget;
    var ask, busy := Alter(i, ioprio, cls), Busy(i, 0);
    FreshIsIdle(b, i);
    StepKeeps(b, ask);
    var a := Next(b, ask);
    BusyMakes(a, i, 0);
    StepKeeps(a, busy);
    var a1 := Next(a, busy);
    StepKeeps(a1, ask);
    var a2 := Next(a1, ask);
    BusyMakes(a2, i, 0);
    var a3 := Next(a2, busy);
    LosesWeight(b.ents[i], a1.ents[i], a3.ents[i], ioprio, cls);
    assert IsRun(a3, []) && RunTo(a3, []) == a3 && Patient(a3, []);
    StepKeeps(a2, busy);
    OneStep(a2, busy, []);
    OneStep(a1, ask, [busy] + []);
    OneStep(a, busy, [ask] + ([busy] + []));
    assert [busy] + ([ask] + ([busy] + [])) == Losing(i, ioprio, cls);
  }

  lemma FreshIsIdle(b: Bfq, i: nat)
    requires Good(b) && AllWeighty(b) && i < |b.ents| && b.ents[i].newWeight == 0
    ensures b.served != Some(i)
  {
    At(b, i);
  }

  /** Seen from the entity. */
  lemma LosesWeight(e: Ent, f: Ent, g: Ent, ioprio: int, cls: nat)
    requires Weighty(e) && e.newWeight == 0 && ioprio != e.ioprio && ioprio < LEVELS
    requires SameTuning(Made(Asked(e, ioprio, cls)).(onSt := true), f)
    requires SameTuning(Made(Asked(f, ioprio, cls)).(onSt := true), g)
    ensures g.weight == 0 && f.ioprio == ioprio
  {
  }

  /** Asking for a priority is too early exactly if it can lose a queue its weight: if some
      run from there, without asking too early again, ends with a weightless queue on the
      active tree. */
  lemma TooEarlyIff(b: Bfq, st: Step)
    requires Good(b) && AllBoosted(b) && AllWeighty(b) && Enabled(b, st)
    ensures Shaped(b) && (b.served.Some? ==> b.served.value < |b.ents|)
    ensures TooEarly(b, st) <==>
      exists steps :: IsRun(Next(b, st), steps) && Patient(Next(b, st), steps) && Weightless(RunTo(Next(b, st), steps))
  {
    hide Good, Shaped, Enabled, Next, AllBoosted, AllWeighty, IsRun, RunTo, Patient, Weightless, TooEarly;
    StepKeeps(b, st);
    StepKeepsBoosted(b, st);
    StepWeightyIff(b, st);
    var a := Next(b, st);
    if TooEarly(b, st) {
      assert st.Alter? by { EarlyAsks(b, st); }
      EarlyLoses(b, st.i, st.ioprio, st.cls);
    } else {
      forall steps | IsRun(a, steps) && Patient(a, steps) ensures !Weightless(RunTo(a, steps)) {
        PatientRuns(a, steps);
        WeightyHaveWeight(RunTo(a, steps));
        NotWeightless(RunTo(a, steps));
      }
    }
  }

  lemma EarlyAsks(b: Bfq, st: Step)
    requires TooEarly(b, st)
    ensures st.Alter?
  {
  }

  lemma NotWeightless(b: Bfq)
    requires HaveWeight(b)
    ensures !Weightless(b)
  {
  }

  // ----- Priorities ------------------------------------------------------------------

  /** A queue allocated with priority `first`: no weight yet, or the weight of its priority and
      the weight of its first one still asked for. */
  predicate Rooted(e: Ent, first: int) {
    || (e.origWeight == 0 && e.newWeight == 0 && e.newIoprio == e.ioprio == first && e.changed)
    || (e.newWeight == FromIoprio(first) && e.origWeight == FromIoprio(e.ioprio) && e.ioprio < LEVELS)
  }

  lemma TurnKeepsRooted(e: Ent, f: Ent, coeff: int, first: int)
    requires 0 <= first < LEVELS && Sane(e) && Rooted(e, first) && Turns(e, f, coeff)
    ensures Rooted(f, first)
  {
  }

  /** In a patient run a queue keeps asking for the weight of its first priority. */
  lemma {:induction false} RootedInRuns(b: Bfq, steps: seq<Step>, i: nat, first: int)
    requires Good(b) && IsRun(b, steps) && Patient(b, steps) && i < |b.ents| && 0 <= first < LEVELS && Rooted(b.ents[i], first)
    ensures i < |RunTo(b, steps).ents| && Rooted(RunTo(b, steps).ents[i], first)
    decreases |steps|
  {
    hide Good, Next, Enabled, Shaped, Turns, Sane;
    if steps != [] {
      var st := steps[0];
      StepKeeps(b, st);
      StepLength(b, st);
      var coeff := StepTurns(b, st, i);
      GoodIsSane(b, i);
      if !(st.Alter? && st.i == i) {
        TurnKeepsRooted(b.ents[i], Next(b, st).ents[i], coeff, first);
      } else {
        AskedIsRooted(b, st, i, first);
      }
      RootedInRuns(Next(b, st), steps[1..], i, first);
    }
  }

  lemma AskedIsRooted(b: Bfq, st: Step, i: nat, first: int)
    requires i < |b.ents| && st.Alter? && st.i == i && !TooEarly(b, st) && Rooted(b.ents[i], first) && first < LEVELS
    ensures Rooted(Asked(b.ents[i], st.ioprio, st.cls), first)
  {
  }

  /** When the pending change of a queue is made, the priority in use becomes the one asked for
      exactly if one of the two is the queue's first; otherwise it goes back to the first. */
  lemma SynchronizedIff(e: Ent, first: int)
    requires Sane(e) && e.changed && 0 <= first < LEVELS && Rooted(e, first)
    ensures var f := Made(e);
      && f.cls == e.newCls
      && (f.ioprio == e.newIoprio <==> e.ioprio == first || e.newIoprio == first)
      && (f.ioprio == e.newIoprio || f.ioprio == first)
  {
  }

  /** In every patient run from queues as they are allocated, at every activation of a queue
      of which another priority was asked for. */
  lemma PriorityTakesEffectIff(b: Bfq, steps: seq<Step>, i: nat, budget: int)
    requires Initial(b) && IsRun(b, steps) && Patient(b, steps) && i < |b.ents|
    requires b.ents[i] == NewEnt(b.ents[i].ioprio, b.ents[i].cls)
    requires Enabled(RunTo(b, steps), Busy(i, budget)) && RunTo(b, steps).ents[i].changed
    ensures var s, first := RunTo(b, steps), b.ents[i].ioprio;
      && Shaped(s) && (s.served.Some? ==> s.served.value < |s.ents|) && |Next(s, Busy(i, budget)).ents| == |s.ents|
      && var used, asked := Next(s, Busy(i, budget)).ents[i].ioprio, s.ents[i].newIoprio;
      && (used == asked <==> s.ents[i].ioprio == first || asked == first)
      && (used == asked || used == first)
  {
    hide IsRun, RunTo, Patient, Good, Next, Shaped;
    InitialIsGood(b);
    var s, first := RunTo(b, steps), b.ents[i].ioprio;
    assert 0 <= first < LEVELS;
    RunsKeep(b, steps);
    RootedInRuns(b, steps, i, first);
    GoodIsSane(s, i);
    StepLength(s, Busy(i, budget));
    BusyMakes(s, i, budget);
    SynchronizedIff(s.ents[i], first);
  }

  /** Allocated with priority 4, asked to use 2 and using it, then boosted: it uses 4 again,
      and 2 is still what was asked for. */
  lemma PriorityGoesBack()
    ensures var used := Made(Asked(Made(NewEnt(4, 1)), 2, 1));
      var boosted := Made(used.(coeff := 20, changed := true));
      used.ioprio == 2 && boosted.ioprio == 4 && boosted.newIoprio == 2
  {
  }
}
