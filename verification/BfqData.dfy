/** The fair-queueing scheduler's entities and classes, changed in place. */
module BfqData {
  import opened Requests
  import M = BfqModel
  import W = BfqWeights
  import R = BfqRuns

  class Scheduler {
    var ents: seq<M.Ent>
    var st: seq<M.Service>
    var served: Option<nat>

    ghost function View(): M.Bfq
      reads this
    {
      M.Bfq(ents, st, served)
    }

    /** Entities on no tree, and classes without weight. */
    constructor (entities: seq<M.Ent>)
      requires forall i :: 0 <= i < |entities| ==> W.Sane(entities[i]) && !entities[i].onSt && entities[i].spot == M.Off
      ensures ents == entities && R.Initial(View()) && W.Inv(View())
    {
      ents := entities;
      st := seq(M.CLASSES, _ => M.Service(0, 0, [], None, None));
      served := None;
      new;
      R.InitialInv(View());
    }

    /** Takes an entity off whatever holds it. */
    method Detach(i: nat)
      requires i < |ents| && ents[i].cls < |st|
      modifies this
      ensures View() == M.Detached(old(View()), i)
    {
      var e := ents[i];
      if served == Some(i) {
        served := None;
      }
      if e.spot == M.OnIdle && i in st[e.cls].idle {
        st := st[e.cls := M.IdleRemoved(st[e.cls], i)];
      }
      ents := ents[i := e.(spot := M.Off)];
    }

    method AddWeight(c: nat, w: int)
      requires c < |st|
      modifies this`st
      ensures View() == M.AddWeight(old(View()), c, w)
    {
      st := st[c := st[c].(wsum := st[c].wsum + w)];
    }

    /** Makes a pending change of weight, priority or class; the class has the weight that is
        taken out of it. */
    method UpdateWeightPrio(i: nat)
      requires i < |ents| && ents[i].cls < |st| && ents[i].newCls < |st|
      requires ents[i].changed ==> st[ents[i].cls].wsum >= ents[i].weight
      modifies this`st, this`ents
      ensures View() == M.Reweigh(old(View()), i) && |ents| == |old(ents)|
    {
      var e := ents[i];
      if e.changed {
        assert st[e.cls].wsum >= e.weight;
        var f := M.Reprioritized(e);
        AddWeight(e.cls, -e.weight);
        AddWeight(f.cls, f.weight);
        if f.cls != e.cls {
          f := f.(start := st[f.cls].vtime);
        }
        ents := ents[i := f];
      }
    }

    /** Puts an entity on the active tree, from wherever it is. */
    method ActivateEntity(i: nat)
      requires W.Inv(View()) && i < |ents|
      modifies this
      ensures M.Shaped(old(View())) && View() == M.Activate(old(View()), i) && W.Inv(View())
    {
      hide W.Inv, M.Reweigh, M.Restarted;
      W.InvShaped(View());
      W.ActivateKeeps(View(), i);
      W.RestartedHasWeight(View(), i);
      Restart(i);
      UpdateWeightPrio(i);
      var f := ents[i];
      ents := ents[i := f.(spot := M.OnActive, finish := if f.weight > 0 then f.start + M.Delta(f.budget, f.weight) else f.start)];
    }

    /** The first half of activation. */
    method Restart(i: nat)
      requires W.Inv(View()) && i < |ents|
      modifies this
      ensures M.Shaped(old(View())) && View() == M.Restarted(old(View()), i)
      ensures i < |ents| && ents[i].cls < |st| && ents[i].newCls < |st|
    {
      hide W.Inv, M.Detached, M.Restart;
      W.InvShaped(View());
      var e := ents[i];
      var joins := served != Some(i) && e.spot == M.Off;
      var start := e.start;
      if served == Some(i) {
        if e.weight > 0 {
          start := e.start + M.Delta(e.service, e.weight);
        }
      } else if e.spot == M.OnIdle {
        start := if st[e.cls].vtime > e.finish then st[e.cls].vtime else e.finish;
      } else if e.spot == M.Off {
        start := st[e.cls].vtime;
      }
      assert start == M.Restart(View(), i) by { RestartIs(View(), i); }
      Detach(i);
      if joins {
        AddWeight(e.cls, e.weight);
      }
      ents := ents[i := ents[i].(start := start, onSt := true)];
    }

    /** Stops an entity: off whatever holds it, and remembered or forgotten. */
    method DeactivateEntity(i: nat, requeue: bool)
      requires W.Inv(View()) && i < |ents|
      modifies this
      ensures M.Shaped(old(View())) && View() == M.Deactivate(old(View()), i, requeue) && W.Inv(View())
    {
      hide W.Inv, M.Forgotten, M.Remembered, M.LastFinish;
      W.InvShaped(View());
      W.DeactivateKeeps(View(), i, requeue);
      var e := ents[i];
      if !e.onSt {
        return;
      }
      assert M.LastFinish(View(), i) == if served == Some(i) && e.weight > 0 then e.start + M.Delta(e.service, e.weight) else e.finish by {
        FinishIs(View(), i);
      }
      var finish := if served == Some(i) && e.weight > 0 then e.start + M.Delta(e.service, e.weight) else e.finish;
      if !requeue || finish <= st[e.cls].vtime {
        Forget(i, finish);
      } else {
        Remember(i, finish);
      }
    }

    method Forget(i: nat, finish: int)
      requires i < |ents| && ents[i].cls < |st|
      modifies this
      ensures View() == M.Forgotten(old(View()), i, finish)
    {
      hide M.Detached;
      var e := ents[i];
      Detach(i);
      ents := ents[i := ents[i].(finish := finish)];
      AddWeight(e.cls, -e.weight);
      ents := ents[i := ents[i].(onSt := false)];
    }

    method Remember(i: nat, finish: int)
      requires i < |ents| && ents[i].cls < |st|
      modifies this
      ensures View() == M.Remembered(old(View()), i, finish)
    {
      hide M.Detached, M.IdleInserted;
      var c := ents[i].cls;
      Detach(i);
      ents := ents[i := ents[i].(finish := finish)];
      st := st[c := M.IdleInserted(ents, st[c], i, finish)];
      ents := ents[i := ents[i].(spot := M.OnIdle)];
    }

    /** Forgets one idle entity of a class whose time has passed. */
    method ForgetIdle(c: nat)
      requires W.Inv(View()) && c < M.CLASSES
      modifies this
      ensures M.Shaped(old(View())) && View() == M.ForgetIdle(old(View()), c) && W.Inv(View())
    {
      hide W.Inv, M.Forgotten, M.AnyActive;
      W.InvShaped(View());
      W.ForgetIdleKeeps(View(), c);
      var first, last := st[c].first, st[c].last;
      assert st == st[c := st[c].(vtime := st[c].vtime)];
      if !M.AnyActive(ents, c) && last.Some? && last.value < |ents| && ents[last.value].finish <= st[c].vtime {
        st := st[c := st[c].(vtime := ents[last.value].finish)];
      }
      if first.Some? && first.value < |ents| && ents[first.value].finish <= st[c].vtime {
        Forget(first.value, ents[first.value].finish);
      }
    }

    /** Puts an entity of the active tree under service, at a virtual time that makes it
        eligible. */
    method Serve(i: nat, vtime: int)
      requires W.Inv(View()) && i < |ents| && served == None && ents[i].spot == M.OnActive
      modifies this
      ensures M.Shaped(old(View())) && View() == M.Serve(old(View()), i, vtime) && W.Inv(View()) && W.WithinBudget(View())
    {
      hide W.Inv, M.ForgetIdle;
      W.InvShaped(View());
      W.ServeKeeps(View(), i, vtime);
      var c := ents[i].cls;
      if vtime > st[c].vtime {
        W.VtimeKeeps(View(), c, vtime);
        st := st[c := st[c].(vtime := vtime)];
        ForgetIdle(c);
      }
      ents := ents[i := ents[i].(spot := M.Off, service := 0)];
      served := Some(i);
    }

    /** Charges service to the entity under service. */
    method Served(amount: int)
      requires W.Inv(View()) && served.Some? && W.WithinBudget(View())
      requires 0 <= amount <= ents[served.value].budget - ents[served.value].service
      modifies this
      ensures old(served).value < |old(ents)| && M.Shaped(old(View()))
      ensures View() == M.Charge(old(View()), amount) && W.Inv(View()) && W.WithinBudget(View())
    {
      hide W.Inv, M.ForgetIdle, M.Delta;
      ServedAt(View());
      W.ChargeKeeps(View(), amount);
      W.ChargedIs(View(), amount);
      var i := served.value;
      var c := ents[i].cls;
      var vtime := st[c].vtime + if st[c].wsum > 0 then M.Delta(amount, st[c].wsum) else 0;
      ents := ents[i := ents[i].(service := ents[i].service + amount)];
      st := st[c := st[c].(vtime := vtime)];
      ForgetIdle(c);
    }

    /** Dispatches a request of the queue under service if its budget covers it. */
    method Dispatch(charge: int) returns (sent: bool)
      requires W.Inv(View()) && served.Some? && W.WithinBudget(View()) && charge >= 0
      modifies this
      ensures old(served).value < |old(ents)| && M.Shaped(old(View()))
      ensures (View(), sent) == M.Dispatch(old(View()), charge) && W.Inv(View()) && W.WithinBudget(View())
    {
      hide W.Inv, M.Charge;
      ServedAt(View());
      var e := ents[served.value];
      if charge > e.budget - e.service {
        return false;
      }
      Served(charge);
      return true;
    }

    method SetBudget(i: nat, budget: int)
      requires W.Inv(View()) && i < |ents| && budget >= 0
      modifies this`ents
      ensures View() == M.SetBudget(old(View()), i, budget) && W.Inv(View()) && i < |ents|
    {
      hide W.Inv;
      R.BudgetKeeps(View(), i, budget);
      ents := ents[i := ents[i].(budget := budget)];
    }

    /** Ends the turn of the queue under service. */
    method Expire(full: bool, budget: int, busy: bool)
      requires W.Inv(View()) && served.Some? && W.WithinBudget(View()) && budget >= 0
      modifies this
      ensures old(served).value < |old(ents)| && M.Shaped(old(View()))
      ensures View() == M.Expire(old(View()), full, budget, busy) && W.Inv(View()) && served == None
    {
      hide W.Inv, M.Charge, M.Activate, M.Deactivate, M.SetBudget;
      ServedAt(View());
      R.FinishKeeps(View(), full, budget, busy);
      var i := served.value;
      if full {
        Served(ents[i].budget - ents[i].service);
      }
      SetBudget(i, budget);
      if busy {
        ActivateEntity(i);
      } else {
        DeactivateEntity(i, true);
      }
    }
  }

  lemma FinishIs(b: M.Bfq, i: nat)
    requires i < |b.ents|
    ensures var e := b.ents[i];
            M.LastFinish(b, i) == if b.served == Some(i) && e.weight > 0 then e.start + M.Delta(e.service, e.weight) else e.finish
  {
  }

  lemma ServedAt(b: M.Bfq)
    requires W.Inv(b) && b.served.Some?
    ensures b.served.value < |b.ents| && M.Shaped(b)
  {
    W.ServedFacts(b);
  }

  lemma RestartIs(b: M.Bfq, i: nat)
    requires i < |b.ents| && b.ents[i].cls < |b.st|
    ensures var e := b.ents[i]; var vtime := b.st[e.cls].vtime;
            M.Restart(b, i) ==
              if b.served == Some(i) then (if e.weight > 0 then e.start + M.Delta(e.service, e.weight) else e.start)
              else if e.spot == M.OnIdle then (if vtime > e.finish then vtime else e.finish)
              else if e.spot == M.Off then vtime else e.start
  {
  }
}
