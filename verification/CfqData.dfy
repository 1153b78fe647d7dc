/** CFQ's operations on queues, updating memory in place and following merge links with
    loops.  No freed queue is ever read, and the checks on counts never fail. */
module CfqData {
  import opened Requests
  import opened CfqModel
  import I = CfqInvariant

  class Scheduler {
    var mem: Memory
    var cic: map<Pid, Addr>
    var rqs: map<RqId, Rq>
    ghost var ch: I.Chains

    ghost function View(): Cfq
      reads this
    {
      Cfq(mem, cic, rqs)
    }

    ghost predicate Valid()
      reads this
    {
      I.Inv(View(), ch)
    }

    constructor ()
      ensures Valid() && View() == Cfq(map[], map[], map[])
    {
      mem, cic, rqs, ch := map[], map[], map[], map[];
    }

    method ProcessRefs(a: Addr) returns (n: int)
      requires Valid() && a in mem
      ensures n == |I.Reaching(cic, ch, a)|
    {
      assert I.Balanced(View(), ch, a);
      n := mem[a].ref - (mem[a].allocRead + mem[a].allocWrite);
    }

    /** Drops a reference; a queue that is freed has no requests. */
    method PutQueue(a: Addr)
      requires a in mem && 0 < mem[a].ref && (mem[a].ref == 1 ==> mem[a].Allocated() == 0)
      modifies this`mem
      ensures mem == Put(old(mem), a)
    {
      if mem[a].ref == 1 {
        mem := mem - {a};
      } else {
        mem := mem[a := mem[a].(ref := mem[a].ref - 1)];
      }
    }

    /** Drops the references taken in advance on the queues that `q` is to merge with. */
    method PutCooperator(q: Addr)
      requires Valid() && q in ch && q in mem
      modifies this`mem
      ensures mem == PutFrom(old(mem), old(mem)[q].newCfqq, q, {})
      ensures q in mem && mem[q] == old(mem)[q]
    {
      hide I.Inv, I.Forest, Put;
      ghost var m0 := mem;
      ghost var s0 := View();
      ghost var seen: set<Addr> := {};
      I.InvForest(s0, ch);
      var next := mem[q].newCfqq;
      I.NodeLink(m0, ch, q);
      if next.Some? { I.ChainLive(m0, ch, next.value); }
      while next.Some?
        invariant PutFrom(mem, next, q, seen) == PutFrom(m0, m0[q].newCfqq, q, {})
        invariant q in mem && mem[q] == m0[q]
        invariant next.Some? ==>
          && next.value in ch && q !in ch[next.value] && seen !! ch[next.value]
          && forall b :: b in ch[next.value] ==> b in m0 && b in mem && mem[b] == m0[b]
        decreases if next.Some? then ch[next.value] else {}, next.Some?
      {
        var a := next.value;
        I.NodeLink(m0, ch, a);
        assert a != q;
        I.FreedHasNoRequests(s0, ch, a);
        PutOthers(mem, a);
        next := mem[a].newCfqq;
        PutQueue(a);
        seen := seen + {a};
      }
    }

    static lemma PutOthers(m: Memory, a: Addr)
      ensures forall b :: b in m && b != a ==> b in Put(m, a) && Put(m, a)[b] == m[b]
    {
    }

    /** A process gives up its queue: on exit, or when a shared queue is broken apart. */
    method LeaveQueue(c: Pid)
      requires Valid() && c in cic
      modifies this
      ensures Valid() && View() == ExitProcess(old(View()), c)
    {
      hide I.Inv, I.Forest, Put, PutFrom;
      var q := cic[c];
      I.InvForest(View(), ch);
      I.NodeLink(mem, ch, q);
      I.LeaveKeeps(View(), ch, c);
      I.FreedHasNoRequests(View(), ch, q);
      PutCooperator(q);
      cic := cic - {c};
      PutQueue(q);
      ch := I.Prune(cic, ch);
    }

    /** Schedules the merge of `q` with the end of the chain of `n`. */
    method SetupMerge(q: Addr, n: Addr)
      requires Valid() && q in mem && n in mem && q != n && mem[q].newCfqq.None?
      modifies this`mem, this`ch
      ensures Valid() && mem == CfqModel.SetupMerge(old(mem), q, n)
    {
      hide I.Inv, I.Forest;
      ghost var ch' := I.SetupMergeKeeps(View(), ch, q, n);
      I.InvForest(View(), ch);
      if mem[n].ProcessRefs() == 0 {
        ch := ch';
        return;
      }
      I.ReachedIsChained(View(), ch, n);
      ghost var seen: set<Addr> := {};
      var t := n;
      I.NodeLink(mem, ch, t);
      while mem[t].newCfqq.Some?
        invariant mem == old(mem) && ch == old(ch)
        invariant t in ch && t in mem && t != q && seen !! ch[t]
        invariant Tail(mem, q, t, seen) == Tail(mem, q, n, {})
        decreases ch[t]
      {
        var m := mem[t].newCfqq.value;
        I.NodeLink(mem, ch, t);
        if m == q {
          ch := ch';
          return;
        }
        I.NodeLink(mem, ch, m);
        seen := seen + {t};
        t := m;
      }
      I.NodeLink(mem, ch, t);
      assert Tail(mem, q, n, {}) == Some(t);
      var mine, theirs := mem[q].ProcessRefs(), mem[t].ProcessRefs();
      if mine != 0 && theirs != 0 {
        if theirs >= mine {
          mem := mem[q := mem[q].(newCfqq := Some(t))];
          mem := mem[t := mem[t].(ref := mem[t].ref + mine)];
        } else {
          mem := mem[t := mem[t].(newCfqq := Some(q))];
          mem := mem[q := mem[q].(ref := mem[q].ref + theirs)];
        }
      }
      ch := ch';
    }

    /** A process without a queue gets a new one. */
    method GetQueue(c: Pid, slot: Addr)
      requires Valid() && c !in cic && slot !in mem
      modifies this
      ensures Valid() && View() == CfqModel.GetQueue(old(View()), c, slot)
    {
      hide I.Inv;
      I.GetQueueKeeps(View(), ch, c, slot);
      mem := mem[slot := CfqQueue(1, 0, 0, None, false, false)];
      cic := cic[c := slot];
      ch := ch[slot := {slot}];
    }

    /** A process moves on to the queue its own is to be merged with. */
    method MergeCfqqs(c: Pid)
      requires Valid() && c in cic && cic[c] in mem && mem[cic[c]].newCfqq.Some?
      modifies this
      ensures Valid() && View() == CfqModel.MergeCfqqs(old(View()), c)
      ensures c in cic && cic[c] == old(mem)[old(cic)[c]].newCfqq.value
    {
      hide I.Inv, I.Forest, Put;
      I.InvForest(View(), ch);
      I.MergeKeeps(View(), ch, c);
      var q := cic[c];
      I.NodeLink(mem, ch, q);
      var n := mem[q].newCfqq.value;
      I.NodeLink(mem, ch, n);
      I.FreedHasNoRequests(View(), ch, q);
      cic := cic[c := n];
      mem := mem[n := mem[n].(coop := true)];
      PutQueue(q);
      ch := I.Prune(cic, ch);
    }

    /** A process leaves a shared queue that is to be broken apart, unless it is the last. */
    method SplitCfqq(c: Pid)
      requires Valid() && c in cic
      modifies this
      ensures Valid() && View() == CfqModel.SplitCfqq(old(View()), c)
    {
      hide I.Inv, I.Forest;
      I.InvForest(View(), ch);
      var q := cic[c];
      I.NodeLink(mem, ch, q);
      if mem[q].ProcessRefs() == 1 {
        I.FlagsKeep(View(), ch, q, false, false);
        mem := mem[q := mem[q].(coop := false, splitCoop := false)];
      } else {
        LeaveQueue(c);
      }
    }

    /** Splits, merges or makes the queue of process `c` when that is due. */
    method PrepareQueue(c: Pid, slot: Addr)
      requires Valid() && slot !in mem
      modifies this
      ensures Valid() && View() == Prepare(old(View()), c, slot)
      ensures c in cic && rqs == old(rqs)
    {
      hide I.Inv, CfqModel.SplitCfqq, CfqModel.MergeCfqqs;
      ghost var s0 := View();
      ghost var _ := I.PrepareKeeps(s0, ch, c, slot);
      if c in cic {
        I.OwnQueueLive(s0, ch, c);
        if mem[cic[c]].coop && mem[cic[c]].splitCoop {
          ghost var _ := I.SplitKeeps(s0, ch, c);
          SplitCfqq(c);
        }
      }
      if c !in cic {
        GetQueue(c, slot);
      } else {
        I.OwnQueueLive(View(), ch, c);
        I.MergeNothing(View(), c);
        if mem[cic[c]].newCfqq.Some? { MergeCfqqs(c); }
      }
    }

    /** Allocates a request from the queue of process `c`. */
    method SetRequest(c: Pid, write: bool, r: RqId, slot: Addr)
      requires Valid() && r !in rqs && slot !in mem
      modifies this
      ensures Valid() && View() == CfqModel.SetRequest(old(View()), c, write, r, slot)
    {
      hide I.Inv, Prepare;
      PrepareQueue(c, slot);
      ghost var s1 := View();
      I.OwnQueueLive(s1, ch, c);
      I.AllocateKeeps(s1, ch, c, write, r);
      var a := cic[c];
      if write {
        mem := mem[a := mem[a].(allocWrite := mem[a].allocWrite + 1)];
      } else {
        mem := mem[a := mem[a].(allocRead := mem[a].allocRead + 1)];
      }
      mem := mem[a := mem[a].(ref := mem[a].ref + 1)];
      rqs := rqs[r := Rq(a, write)];
      assert mem == Allocate(s1, c, write, r).mem;
    }

    method PutRequest(r: RqId)
      requires Valid() && r in rqs
      modifies this
      ensures Valid() && View() == CfqModel.PutRequest(old(View()), r)
    {
      hide I.Inv, Put;
      I.PutRequestKeeps(View(), ch, r);
      I.LastRequest(View(), ch, r);
      var rq := rqs[r];
      var q := mem[rq.cfqq];
      if rq.write {
        mem := mem[rq.cfqq := q.(allocWrite := q.allocWrite - 1)];
      } else {
        mem := mem[rq.cfqq := q.(allocRead := q.allocRead - 1)];
      }
      rqs := rqs - {r};
      PutQueue(rq.cfqq);
    }
  }
}
