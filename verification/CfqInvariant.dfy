/** The balance of CFQ's reference counts.  `ch` gives each queue that some process reaches
    the set of queues reached from it along the merge chain, itself included. */
module CfqInvariant {
  import opened Requests
  import opened CfqModel

  type Chains = map<Addr, set<Addr>>

  /** Queue `a` is live, and its merge link leads to a live queue that does not lead back. */
  ghost predicate Node(mem: Memory, ch: Chains, a: Addr)
    requires a in ch
  {
    && a in mem && a in ch[a]
    && (forall b :: b in ch[a] ==> b in ch && ch[b] <= ch[a])
    && match mem[a].newCfqq
       case None => ch[a] == {a}
       case Some(n) => n in ch && a !in ch[n] && ch[a] == {a} + ch[n]
  }

  /** The merge links form a forest over live queues. */
  ghost predicate Forest(mem: Memory, ch: Chains) {
    forall a :: a in ch ==> Node(mem, ch, a)
  }

  lemma Within(mem: Memory, ch: Chains, a: Addr, b: Addr)
    requires Forest(mem, ch) && a in ch && b in ch[a]
    ensures a in mem && b in ch && ch[b] <= ch[a]
  {
    assert Node(mem, ch, a);
  }

  lemma NodeLink(mem: Memory, ch: Chains, a: Addr)
    requires Forest(mem, ch) && a in ch
    ensures a in mem && a in ch[a]
    ensures mem[a].newCfqq.None? ==> ch[a] == {a}
    ensures mem[a].newCfqq.Some? ==>
      mem[a].newCfqq.value in ch && a !in ch[mem[a].newCfqq.value] && ch[a] == {a} + ch[mem[a].newCfqq.value]
  {
    assert Node(mem, ch, a);
    hide Forest;
  }

  lemma ChainLive(mem: Memory, ch: Chains, a: Addr)
    requires Forest(mem, ch) && a in ch
    ensures forall b :: b in ch[a] ==> b in ch && b in mem
  {
    forall b | b in ch[a]
      ensures b in ch && b in mem
    {
      assert Node(mem, ch, a);
      assert b in ch;
      assert Node(mem, ch, b);
    }
  }

  /** The processes whose queue reaches `a`. */
  ghost function Reaching(cic: map<Pid, Addr>, ch: Chains, a: Addr): set<Pid> {
    set c | c in cic && cic[c] in ch && a in ch[cic[c]]
  }

  ghost function Held(rqs: map<RqId, Rq>, a: Addr, write: bool): set<RqId> {
    set r | r in rqs && rqs[r] == Rq(a, write)
  }

  /** Queue `a` has one reference per process that reaches it and one per request. */
  ghost predicate Balanced(s: Cfq, ch: Chains, a: Addr)
    requires a in s.mem
  {
    && s.mem[a].ProcessRefs() == |Reaching(s.cic, ch, a)|
    && s.mem[a].allocRead == |Held(s.rqs, a, false)| && s.mem[a].allocWrite == |Held(s.rqs, a, true)|
    && 0 < s.mem[a].ref
  }

  ghost predicate Inv(s: Cfq, ch: Chains) {
    && Forest(s.mem, ch)
    && (forall a :: a in s.mem ==> Balanced(s, ch, a))
    && (forall c :: c in s.cic ==> s.cic[c] in ch)
    && (forall r :: r in s.rqs ==> s.rqs[r].cfqq in s.mem)
    && (forall a :: a in ch ==> Reaching(s.cic, ch, a) != {})
  }

  lemma InvForest(s: Cfq, ch: Chains)
    requires Inv(s, ch)
    ensures Forest(s.mem, ch)
    ensures forall c :: c in s.cic ==> s.cic[c] in ch
  {
    hide Node, Balanced, Reaching;
  }

  /** A queue that is freed with its last reference has no requests. */
  lemma FreedHasNoRequests(s: Cfq, ch: Chains, a: Addr)
    requires Inv(s, ch) && a in s.mem && a in ch
    ensures 0 < s.mem[a].ref && (s.mem[a].ref == 1 ==> s.mem[a].Allocated() == 0)
  {
    assert Balanced(s, ch, a);
    hide Node, Forest, Reaching, Held;
  }

  /** A chain has one end. */
  lemma {:induction false} OneEnd(mem: Memory, ch: Chains, a: Addr, t: Addr, u: Addr)
    requires Forest(mem, ch) && a in ch && t in ch[a] && u in ch[a] && t in mem && u in mem
    requires mem[t].newCfqq.None? && mem[u].newCfqq.None?
    ensures t == u
    decreases ch[a]
  {
    assert Node(mem, ch, a);
    if mem[a].newCfqq.Some? { OneEnd(mem, ch, mem[a].newCfqq.value, t, u); }
  }

  /** Dropping one reference on each queue of a set. */
  ghost function PutAll(mem: Memory, s: set<Addr>): Memory {
    map a | a in mem && (a in s ==> mem[a].ref != 1) ::
      if a in s then mem[a].(ref := mem[a].ref - 1) else mem[a]
  }

  /** Following a chain while freeing its queues: every queue is visited before it goes. */
  lemma {:induction false} PutFromIsPutAll(mem: Memory, m0: Memory, ch: Chains, p: Addr, q: Addr, seen: set<Addr>)
    requires Forest(m0, ch) && p in ch && q !in ch[p] && seen !! ch[p]
    requires forall a :: a in ch[p] ==> a in mem && mem[a] == m0[a]
    ensures PutFrom(mem, Some(p), q, seen) == PutAll(mem, ch[p])
    decreases ch[p]
  {
    hide Forest;
    NodeLink(m0, ch, p);
    var left := Put(mem, p);
    match m0[p].newCfqq {
      case None =>
        assert PutFrom(left, None, q, seen + {p}) == left;
      case Some(n) =>
        PutFromIsPutAll(left, m0, ch, n, q, seen + {p});
        assert PutAll(left, ch[n]) == PutAll(mem, ch[p]);
    }
  }

  /** A process that leaves gives back one reference on every queue it reaches. */
  lemma LeaveIsPutAll(mem: Memory, ch: Chains, q: Addr)
    requires Forest(mem, ch) && q in ch
    ensures Leave(mem, q) == PutAll(mem, ch[q])
  {
    hide Forest;
    NodeLink(mem, ch, q);
    match mem[q].newCfqq {
      case None =>
        assert PutFrom(mem, None, q, {}) == mem;
      case Some(n) =>
        ChainLive(mem, ch, n);
        PutFromIsPutAll(mem, mem, ch, n, q, {});
        assert Put(PutAll(mem, ch[n]), q) == PutAll(mem, ch[q]);
    }
  }

  /** The queues still reached once `gone` is no longer. */
  ghost function Prune(cic: map<Pid, Addr>, ch: Chains): Chains {
    map a | a in ch && Reaching(cic, ch, a) != {} :: ch[a]
  }

  lemma PruneClosed(mem: Memory, cic: map<Pid, Addr>, ch: Chains, a: Addr, b: Addr)
    requires Forest(mem, ch) && a in Prune(cic, ch) && b in ch[a]
    ensures b in Prune(cic, ch)
  {
    Within(mem, ch, a, b);
    var c :| c in Reaching(cic, ch, a);
    Within(mem, ch, cic[c], a);
    hide Forest;
    assert c in Reaching(cic, ch, b);
  }

  lemma PruneNode(mem: Memory, mem': Memory, cic: map<Pid, Addr>, ch: Chains, a: Addr)
    requires Forest(mem, ch) && a in Prune(cic, ch)
    requires a in mem && a in mem' && mem'[a].newCfqq == mem[a].newCfqq
    ensures Node(mem', Prune(cic, ch), a)
  {
    var pr := Prune(cic, ch);
    assert Node(mem, ch, a);
    forall b | b in ch[a]
      ensures b in pr
    {
      PruneClosed(mem, cic, ch, a, b);
    }
    hide Reaching, Forest;
  }

  lemma PruneForest(mem: Memory, mem': Memory, cic: map<Pid, Addr>, ch: Chains)
    requires Forest(mem, ch)
    requires forall a :: a in Prune(cic, ch) ==> a in mem && a in mem' && mem'[a].newCfqq == mem[a].newCfqq
    ensures Forest(mem', Prune(cic, ch))
  {
    hide Node, Prune;
    forall a | a in Prune(cic, ch)
      ensures Node(mem', Prune(cic, ch), a)
    {
      PruneNode(mem, mem', cic, ch, a);
    }
  }

  lemma PruneReaching(mem: Memory, cic: map<Pid, Addr>, ch: Chains, a: Addr)
    requires Forest(mem, ch) && forall c :: c in cic ==> cic[c] in ch
    ensures Reaching(cic, Prune(cic, ch), a) == Reaching(cic, ch, a)
  {
    hide Forest;
    forall c | c in cic
      ensures cic[c] in Prune(cic, ch)
    {
      NodeLink(mem, ch, cic[c]);
      assert c in Reaching(cic, ch, cic[c]);
    }
  }

  /** A process leaves its queue: on exit, or when a shared queue is broken apart. */
  lemma LeaveKeeps(s: Cfq, ch: Chains, c: Pid)
    requires Inv(s, ch) && c in s.cic
    ensures Inv(s.(cic := s.cic - {c}, mem := Leave(s.mem, s.cic[c])), Prune(s.cic - {c}, ch))
  {
    var q := s.cic[c];
    var cic := s.cic - {c};
    LeaveIsPutAll(s.mem, ch, q);
    var s' := s.(cic := cic, mem := PutAll(s.mem, ch[q]));
    var pr := Prune(cic, ch);
    forall a | a in s.mem
      ensures |Reaching(cic, ch, a)| == |Reaching(s.cic, ch, a)| - if a in ch[q] then 1 else 0
      ensures Reaching(cic, pr, a) == Reaching(cic, ch, a)
    {
      LeaveReaching(s, ch, c, a);
      PruneReaching(s.mem, cic, ch, a);
    }
    LeaveBalance(s, ch, c, pr);
  }

  lemma LeaveReaching(s: Cfq, ch: Chains, c: Pid, a: Addr)
    requires Inv(s, ch) && c in s.cic
    ensures |Reaching(s.cic - {c}, ch, a)| ==
            |Reaching(s.cic, ch, a)| - if a in ch[s.cic[c]] then 1 else 0
  {
    hide Forest, Balanced;
    var was, now := Reaching(s.cic, ch, a), Reaching(s.cic - {c}, ch, a);
    assert now == was - {c};
    assert c in was <==> a in ch[s.cic[c]];
  }

  /** The queues that are freed have neither requests nor processes left; the others keep
      their balance. */
  lemma LeaveQueue(s: Cfq, ch: Chains, c: Pid, pr: Chains, a: Addr)
    requires Inv(s, ch) && c in s.cic && a in s.mem
    requires |Reaching(s.cic - {c}, ch, a)| == |Reaching(s.cic, ch, a)| - if a in ch[s.cic[c]] then 1 else 0
    requires Reaching(s.cic - {c}, pr, a) == Reaching(s.cic - {c}, ch, a)
    ensures var mem := PutAll(s.mem, ch[s.cic[c]]);
      && (a !in mem ==> Held(s.rqs, a, false) == {} && Held(s.rqs, a, true) == {} && Reaching(s.cic - {c}, ch, a) == {})
      && (a in mem ==> mem[a].newCfqq == s.mem[a].newCfqq &&
                       Balanced(s.(cic := s.cic - {c}, mem := mem), pr, a))
  {
    hide Inv, Reaching, Held, Forest, Prune;
    LeaverAt(s, ch, c, a);
  }

  lemma LeaverAt(s: Cfq, ch: Chains, c: Pid, a: Addr)
    requires Inv(s, ch) && c in s.cic && a in s.mem
    ensures Balanced(s, ch, a) && s.cic[c] in ch && ch[s.cic[c]] <= s.mem.Keys
  {
    assert Balanced(s, ch, a);
    hide Balanced;
    ChainLive(s.mem, ch, s.cic[c]);
  }

  lemma LeaveBalance(s: Cfq, ch: Chains, c: Pid, pr: Chains)
    requires Inv(s, ch) && c in s.cic && pr == Prune(s.cic - {c}, ch)
    requires forall a :: a in s.mem ==>
      |Reaching(s.cic - {c}, ch, a)| == |Reaching(s.cic, ch, a)| - if a in ch[s.cic[c]] then 1 else 0
    requires forall a :: a in s.mem ==> Reaching(s.cic - {c}, pr, a) == Reaching(s.cic - {c}, ch, a)
    ensures Inv(s.(cic := s.cic - {c}, mem := PutAll(s.mem, ch[s.cic[c]])), pr)
  {
    hide Node, Balanced, Reaching, Held, Prune, PutAll;
    var cic := s.cic - {c};
    var mem := PutAll(s.mem, ch[s.cic[c]]);
    var s' := s.(cic := cic, mem := mem);
    forall a | a in s.mem
      ensures a !in mem ==> Held(s.rqs, a, false) == {} && Held(s.rqs, a, true) == {} && Reaching(cic, ch, a) == {}
      ensures a in mem ==> mem[a].newCfqq == s.mem[a].newCfqq && Balanced(s', pr, a)
    {
      LeaveQueue(s, ch, c, pr, a);
    }
    PutAllKeys(s.mem, ch[s.cic[c]]);
    RequestsLive(s, mem);
    LeaversLive(s, ch, cic);
    forall a | a in pr
      ensures a in s.mem && Reaching(cic, ch, a) != {}
    {
      PrunedIsLive(s, ch, cic, a);
    }
    PruneForest(s.mem, mem, cic, ch);
  }

  lemma PutAllKeys(mem: Memory, s: set<Addr>)
    ensures PutAll(mem, s).Keys <= mem.Keys
  {
  }

  lemma RequestsLive(s: Cfq, mem: Memory)
    requires forall r :: r in s.rqs ==> s.rqs[r].cfqq in s.mem
    requires forall a :: a in s.mem && a !in mem ==> Held(s.rqs, a, false) == {} && Held(s.rqs, a, true) == {}
    ensures forall r :: r in s.rqs ==> s.rqs[r].cfqq in mem
  {
    forall r | r in s.rqs
      ensures s.rqs[r].cfqq in mem
    {
      assert r in Held(s.rqs, s.rqs[r].cfqq, s.rqs[r].write);
    }
  }

  lemma LeaversLive(s: Cfq, ch: Chains, cic: map<Pid, Addr>)
    requires Inv(s, ch) && forall d :: d in cic ==> d in s.cic && cic[d] == s.cic[d]
    ensures forall d :: d in cic ==> cic[d] in Prune(cic, ch)
  {
    hide Forest, Balanced;
    forall d | d in cic
      ensures cic[d] in Prune(cic, ch)
    {
      NodeLink(s.mem, ch, cic[d]);
      assert d in Reaching(cic, ch, cic[d]);
    }
  }

  lemma PrunedIsLive(s: Cfq, ch: Chains, cic: map<Pid, Addr>, a: Addr)
    requires Inv(s, ch) && a in Prune(cic, ch)
    ensures a in s.mem && a in ch && Reaching(cic, ch, a) != {}
  {
    assert Node(s.mem, ch, a);
    hide Reaching, Balanced, Held, Forest;
  }

  // ----- The other steps -------------------------------------------------------------

  /** A process moves one link along its chain. */
  lemma MergeKeeps(s: Cfq, ch: Chains, c: Pid)
    requires Inv(s, ch) && c in s.cic
    ensures Inv(MergeCfqqs(s, c), Prune(MergeCfqqs(s, c).cic, ch))
    ensures c in MergeCfqqs(s, c).cic && MergeCfqqs(s, c).rqs == s.rqs
  {
    hide Forest, Balanced;
    var q := s.cic[c];
    NodeLink(s.mem, ch, q);
    if s.mem[q].newCfqq.None? {
      PruneNothing(s, ch);
    } else {
      var n := s.mem[q].newCfqq.value;
      NodeLink(s.mem, ch, n);
      MergeMoves(s, ch, c, q, n);
    }
  }

  lemma PruneNothing(s: Cfq, ch: Chains)
    requires Inv(s, ch)
    ensures Prune(s.cic, ch) == ch
  {
    hide Forest, Balanced, Reaching;
  }

  lemma MergeMoves(s: Cfq, ch: Chains, c: Pid, q: Addr, n: Addr)
    requires Inv(s, ch) && c in s.cic && s.cic[c] == q && q in s.mem && s.mem[q].newCfqq == Some(n)
    requires n in s.mem && n in ch && q !in ch[n] && n in ch[n] && ch[q] == {q} + ch[n]
    ensures Inv(MergeCfqqs(s, c), Prune(s.cic[c := n], ch))
  {
    hide Forest, Balanced, Reaching, Held, Prune, Put;
    var cic := s.cic[c := n];
    var s' := MergeCfqqs(s, c);
    assert s' == s.(cic := cic, mem := Put(s.mem[n := s.mem[n].(coop := true)], q));
    hide MergeCfqqs;
    var pr := Prune(cic, ch);
    forall a | a in s.mem
      ensures a !in s'.mem ==> Held(s.rqs, a, false) == {} && Held(s.rqs, a, true) == {} && Reaching(cic, ch, a) == {}
      ensures a in s'.mem ==> s'.mem[a].newCfqq == s.mem[a].newCfqq && Balanced(s', pr, a)
      ensures Reaching(cic, pr, a) == Reaching(cic, ch, a)
    {
      MergeReaching(s, ch, c, q, n, a);
      PruneReaching(s.mem, cic, ch, a);
      MergeQueue(s, ch, c, q, n, pr, a);
    }
    MergedKeys(s.mem, q, n);
    RequestsLive(s, s'.mem);
    forall a | a in pr
      ensures a in s.mem && Reaching(cic, ch, a) != {}
    {
      PrunedIsLive(s, ch, cic, a);
    }
    PruneForest(s.mem, s'.mem, cic, ch);
    MoversLive(s, ch, cic);
  }

  lemma MergedKeys(mem: Memory, q: Addr, n: Addr)
    requires q in mem && n in mem
    ensures Put(mem[n := mem[n].(coop := true)], q).Keys <= mem.Keys
  {
  }

  lemma MoversLive(s: Cfq, ch: Chains, cic: map<Pid, Addr>)
    requires Inv(s, ch) && forall d :: d in cic ==> cic[d] in ch
    ensures forall d :: d in cic ==> cic[d] in Prune(cic, ch)
  {
    hide Forest, Balanced;
    forall d | d in cic
      ensures cic[d] in Prune(cic, ch)
    {
      NodeLink(s.mem, ch, cic[d]);
      assert d in Reaching(cic, ch, cic[d]);
    }
  }

  lemma MergeReaching(s: Cfq, ch: Chains, c: Pid, q: Addr, n: Addr, a: Addr)
    requires c in s.cic && s.cic[c] == q && q in ch && n in ch && ch[q] == {q} + ch[n] && q !in ch[n]
    ensures |Reaching(s.cic[c := n], ch, a)| == |Reaching(s.cic, ch, a)| - if a == q then 1 else 0
  {
    var was, now := Reaching(s.cic, ch, a), Reaching(s.cic[c := n], ch, a);
    if a == q {
      assert now == was - {c} && c in was;
    } else {
      assert now == was;
    }
  }

  lemma MergeQueue(s: Cfq, ch: Chains, c: Pid, q: Addr, n: Addr, pr: Chains, a: Addr)
    requires q in s.mem && n in s.mem && a in s.mem && n != q && Balanced(s, ch, a)
    requires |Reaching(s.cic[c := n], ch, a)| == |Reaching(s.cic, ch, a)| - if a == q then 1 else 0
    requires Reaching(s.cic[c := n], pr, a) == Reaching(s.cic[c := n], ch, a)
    ensures var mem := Put(s.mem[n := s.mem[n].(coop := true)], q);
      && (a !in mem ==> Held(s.rqs, a, false) == {} && Held(s.rqs, a, true) == {} &&
                        Reaching(s.cic[c := n], ch, a) == {})
      && (a in mem ==> mem[a].newCfqq == s.mem[a].newCfqq &&
                       Balanced(s.(cic := s.cic[c := n], mem := mem), pr, a))
  {
    hide Reaching, Held;
  }

  /** Changing nothing but flags. */
  lemma FlagsKeep(s: Cfq, ch: Chains, a: Addr, coop: bool, splitCoop: bool)
    requires Inv(s, ch) && a in s.mem
    ensures Inv(s.(mem := s.mem[a := s.mem[a].(coop := coop, splitCoop := splitCoop)]), ch)
  {
    hide Reaching, Held;
    var mem := s.mem[a := s.mem[a].(coop := coop, splitCoop := splitCoop)];
    forall b | b in ch
      ensures Node(mem, ch, b)
    {
      assert Node(s.mem, ch, b);
      hide Forest, Balanced;
    }
    hide Node;
    forall b | b in mem
      ensures Balanced(s.(mem := mem), ch, b)
    {
      assert Balanced(s, ch, b);
    }
  }

  lemma NewQueueNode(mem: Memory, ch: Chains, slot: Addr, q: CfqQueue, b: Addr)
    requires Forest(mem, ch) && slot !in mem && b in ch && slot !in ch
    ensures Node(mem[slot := q], ch[slot := {slot}], b)
  {
    assert Node(mem, ch, b);
    hide Forest;
  }

  lemma NewQueueReaching(s: Cfq, ch: Chains, c: Pid, slot: Addr, a: Addr)
    requires Inv(s, ch) && c !in s.cic && slot !in s.mem
    ensures slot !in ch
    ensures Reaching(s.cic[c := slot], ch[slot := {slot}], a) ==
            if a == slot then {c} else Reaching(s.cic, ch, a)
  {
    hide Forest, Balanced;
    if slot in ch { NodeLink(s.mem, ch, slot); }
    forall d | d in s.cic
      ensures slot !in ch[s.cic[d]]
    {
      ChainLive(s.mem, ch, s.cic[d]);
    }
  }

  lemma GetQueueKeeps(s: Cfq, ch: Chains, c: Pid, slot: Addr)
    requires Inv(s, ch) && c !in s.cic && slot !in s.mem
    ensures Inv(GetQueue(s, c, slot), ch[slot := {slot}])
  {
    hide Node, Reaching, Held;
    var q := CfqQueue(1, 0, 0, None, false, false);
    var s' := GetQueue(s, c, slot);
    var ch' := ch[slot := {slot}];
    forall a
      ensures slot !in ch && Reaching(s'.cic, ch', a) == if a == slot then {c} else Reaching(s.cic, ch, a)
    {
      NewQueueReaching(s, ch, c, slot, a);
    }
    forall b | b in ch
      ensures Node(s'.mem, ch', b)
    {
      NewQueueNode(s.mem, ch, slot, q, b);
    }
    NewQueueAlone(s, ch, slot, q);
    NoRequestsYet(s, slot);
    forall a | a in s.mem
      ensures Balanced(s', ch', a)
    {
      assert Balanced(s, ch, a);
    }
  }

  lemma NewQueueAlone(s: Cfq, ch: Chains, slot: Addr, q: CfqQueue)
    requires q.newCfqq.None?
    ensures Node(s.mem[slot := q], ch[slot := {slot}], slot)
  {
  }

  lemma NoRequestsYet(s: Cfq, slot: Addr)
    requires slot !in s.mem && forall r :: r in s.rqs ==> s.rqs[r].cfqq in s.mem
    ensures Held(s.rqs, slot, false) == {} && Held(s.rqs, slot, true) == {}
  {
  }

  lemma HeldAfterAdd(rqs: map<RqId, Rq>, r: RqId, rq: Rq, a: Addr, write: bool)
    requires r !in rqs
    ensures |Held(rqs[r := rq], a, write)| == |Held(rqs, a, write)| + if rq == Rq(a, write) then 1 else 0
  {
    var was, now := Held(rqs, a, write), Held(rqs[r := rq], a, write);
    assert now == if rq == Rq(a, write) then was + {r} else was;
  }

  lemma HeldAfterRemove(rqs: map<RqId, Rq>, r: RqId, a: Addr, write: bool)
    requires r in rqs
    ensures |Held(rqs - {r}, a, write)| == |Held(rqs, a, write)| - if rqs[r] == Rq(a, write) then 1 else 0
  {
    var was, now := Held(rqs, a, write), Held(rqs - {r}, a, write);
    assert now == was - {r};
    assert r in was <==> rqs[r] == Rq(a, write);
  }

  /** Only reference counts change, so the forest stays. */
  lemma SameLinks(mem: Memory, mem': Memory, ch: Chains)
    requires Forest(mem, ch)
    requires forall a :: a in ch && a in mem ==> a in mem' && mem'[a].newCfqq == mem[a].newCfqq
    ensures Forest(mem', ch)
  {
    forall b | b in ch
      ensures Node(mem', ch, b)
    {
      assert Node(mem, ch, b);
      hide Forest;
    }
  }

  lemma AllocateKeeps(s: Cfq, ch: Chains, c: Pid, write: bool, r: RqId)
    requires Inv(s, ch) && c in s.cic && r !in s.rqs
    ensures Inv(Allocate(s, c, write, r), ch)
  {
    hide Node, Reaching, Held;
    var s' := Allocate(s, c, write, r);
    var a := s.cic[c];
    NodeLink(s.mem, ch, a);
    SameLinks(s.mem, s'.mem, ch);
    hide Forest;
    forall b | b in s.mem
      ensures Balanced(s', ch, b)
    {
      assert Balanced(s, ch, b);
      HeldAfterAdd(s.rqs, r, Rq(a, write), b, false);
      HeldAfterAdd(s.rqs, r, Rq(a, write), b, true);
    }
  }

  /** What giving a request back does to one queue. */
  lemma PutRequestAt(s: Cfq, ch: Chains, r: RqId, b: Addr)
    requires Inv(s, ch) && r in s.rqs && b in s.mem
    ensures var s' := PutRequest(s, r);
      && (b !in s'.mem ==> b !in ch && Held(s'.rqs, b, false) == {} && Held(s'.rqs, b, true) == {})
      && (b in s'.mem ==> s'.mem[b].newCfqq == s.mem[b].newCfqq && Balanced(s', ch, b))
  {
    hide Node, Reaching, Held;
    assert Balanced(s, ch, b);
    HeldAfterRemove(s.rqs, r, b, false);
    HeldAfterRemove(s.rqs, r, b, true);
    hide Forest;
  }

  lemma PutRequestKeeps(s: Cfq, ch: Chains, r: RqId)
    requires Inv(s, ch) && r in s.rqs
    ensures Inv(PutRequest(s, r), ch)
    ensures var a := s.rqs[r].cfqq;
      && a in s.mem && 0 < s.mem[a].ref
      && 0 < (if s.rqs[r].write then s.mem[a].allocWrite else s.mem[a].allocRead)
  {
    hide Node, Reaching, Held;
    var s' := PutRequest(s, r);
    var a := s.rqs[r].cfqq;
    forall b | b in s.mem
      ensures b !in s'.mem ==> b !in ch && Held(s'.rqs, b, false) == {} && Held(s'.rqs, b, true) == {}
      ensures b in s'.mem ==> s'.mem[b].newCfqq == s.mem[b].newCfqq && Balanced(s', ch, b)
    {
      hide *;
      PutRequestAt(s, ch, r, b);
    }
    HeldMember(s.rqs, r);
    assert Balanced(s, ch, a);
    RequestsLive(s.(rqs := s'.rqs), s'.mem);
    SameLinks(s.mem, s'.mem, ch);
  }

  lemma HeldMember(rqs: map<RqId, Rq>, r: RqId)
    requires r in rqs
    ensures 0 < |Held(rqs, rqs[r].cfqq, rqs[r].write)|
  {
    assert r in Held(rqs, rqs[r].cfqq, rqs[r].write);
  }

  // ----- Scheduling a merge ----------------------------------------------------------

  /** A queue with process references is reached by some process. */
  lemma ReachedIsChained(s: Cfq, ch: Chains, a: Addr)
    requires Inv(s, ch) && a in s.mem && s.mem[a].ProcessRefs() != 0
    ensures a in ch
  {
    assert Balanced(s, ch, a);
    hide Forest, Balanced;
    var c :| c in Reaching(s.cic, ch, a);
    ChainLive(s.mem, ch, s.cic[c]);
  }

  /** Following the chain of `n` stays on live queues and ends at the chain's end. */
  lemma {:induction false} TailIsEnd(mem: Memory, ch: Chains, q: Addr, n: Addr, seen: set<Addr>)
    requires Forest(mem, ch) && n in ch && n != q && seen !! ch[n]
    ensures var t := Tail(mem, q, n, seen);
      && (t.Some? ==> t.value in ch && t.value in mem && t.value != q && mem[t.value].newCfqq.None?)
      && (t.None? ==> q in ch[n])
    decreases ch[n]
  {
    NodeLink(mem, ch, n);
    hide Forest;
    match mem[n].newCfqq {
      case None =>
      case Some(m) =>
        NodeLink(mem, ch, m);
        if m != q { TailIsEnd(mem, ch, q, m, seen + {n}); }
    }
  }

  /** The chains once the end `from` of one chain is linked to the end `to` of another. */
  ghost function Joined(ch: Chains, from: Addr, to: Addr): Chains {
    map a | a in ch :: if from in ch[a] then ch[a] + {to} else ch[a]
  }

  lemma JoinedNode(mem: Memory, mem': Memory, ch: Chains, from: Addr, to: Addr, a: Addr)
    requires Forest(mem, ch) && from in ch && to in ch && from != to && a in ch
    requires from in mem && to in mem && mem[from].newCfqq.None? && mem[to].newCfqq.None?
    requires mem'.Keys == mem.Keys
    requires forall b :: b in mem ==> mem'[b].newCfqq == if b == from then Some(to) else mem[b].newCfqq
    ensures Node(mem', Joined(ch, from, to), a)
  {
    hide Forest;
    var j := Joined(ch, from, to);
    NodeLink(mem, ch, a);
    NodeLink(mem, ch, from);
    NodeLink(mem, ch, to);
    forall b | b in j[a]
      ensures b in j && j[b] <= j[a]
    {
      if b in ch[a] { Within(mem, ch, a, b); }
    }
    if mem[a].newCfqq.Some? { NodeLink(mem, ch, mem[a].newCfqq.value); }
  }

  lemma JoinedReaching(s: Cfq, ch: Chains, from: Addr, to: Addr, a: Addr)
    requires Inv(s, ch) && from in ch && to in ch && from != to
    requires from in s.mem && to in s.mem && s.mem[from].newCfqq.None? && s.mem[to].newCfqq.None?
    ensures |Reaching(s.cic, Joined(ch, from, to), a)| ==
            |Reaching(s.cic, ch, a)| + if a == to then |Reaching(s.cic, ch, from)| else 0
    ensures Reaching(s.cic, ch, a) <= Reaching(s.cic, Joined(ch, from, to), a)
  {
    hide Forest, Balanced;
    var j := Joined(ch, from, to);
    var was, now, more := Reaching(s.cic, ch, a), Reaching(s.cic, j, a), Reaching(s.cic, ch, from);
    forall c | c in s.cic && from in ch[s.cic[c]]
      ensures to !in ch[s.cic[c]]
    {
      if to in ch[s.cic[c]] { OneEnd(s.mem, ch, s.cic[c], from, to); }
    }
    if a == to {
      assert now == was + more && was !! more;
    } else {
      assert now == was;
    }
  }

  lemma LinkKeeps(s: Cfq, ch: Chains, from: Addr, to: Addr)
    requires Inv(s, ch) && from in ch && to in ch && from != to
    requires from in s.mem && to in s.mem && s.mem[from].newCfqq.None? && s.mem[to].newCfqq.None?
    ensures Inv(s.(mem := Link(s.mem, from, to)), Joined(ch, from, to))
  {
    hide Node, Reaching, Held;
    var mem := Link(s.mem, from, to);
    var j := Joined(ch, from, to);
    forall a | a in ch
      ensures Node(mem, j, a)
    {
      JoinedNode(s.mem, mem, ch, from, to, a);
    }
    hide Forest;
    assert Balanced(s, ch, from);
    forall a | a in s.mem
      ensures Balanced(s.(mem := mem), j, a)
    {
      assert Balanced(s, ch, a);
      JoinedReaching(s, ch, from, to, a);
    }
    hide Balanced;
    forall a | a in j
      ensures Reaching(s.cic, j, a) != {}
    {
      JoinedReaching(s, ch, from, to, a);
    }
  }

  lemma SetupMergeKeeps(s: Cfq, ch: Chains, q: Addr, n: Addr) returns (ch': Chains)
    requires Inv(s, ch) && Enabled(s, DoSetupMerge(q, n))
    ensures Inv(s.(mem := SetupMerge(s.mem, q, n)), ch')
  {
    hide Forest, Balanced, Reaching, Held, Link;
    ch' := ch;
    if s.mem[n].ProcessRefs() != 0 {
      ReachedIsChained(s, ch, n);
      TailIsEnd(s.mem, ch, q, n, {});
      var t := Tail(s.mem, q, n, {});
      if t.Some? && s.mem[q].ProcessRefs() != 0 && s.mem[t.value].ProcessRefs() != 0 {
        ReachedIsChained(s, ch, q);
        if s.mem[t.value].ProcessRefs() >= s.mem[q].ProcessRefs() {
          LinkKeeps(s, ch, q, t.value);
          ch' := Joined(ch, q, t.value);
        } else {
          LinkKeeps(s, ch, t.value, q);
          ch' := Joined(ch, t.value, q);
        }
      }
    }
  }

  // ----- Runs ------------------------------------------------------------------------

  lemma SplitKeeps(s: Cfq, ch: Chains, c: Pid) returns (ch': Chains)
    requires Inv(s, ch) && c in s.cic
    ensures Inv(SplitCfqq(s, c), ch') && SplitCfqq(s, c).mem.Keys <= s.mem.Keys
    ensures SplitCfqq(s, c).rqs == s.rqs
  {
    var q := s.cic[c];
    NodeLink(s.mem, ch, q);
    if s.mem[q].ProcessRefs() == 1 {
      FlagsKeep(s, ch, q, false, false);
      ch' := ch;
    } else {
      LeaveKeeps(s, ch, c);
      LeaveIsPutAll(s.mem, ch, q);
      PutAllKeys(s.mem, ch[q]);
      ch' := Prune(s.cic - {c}, ch);
    }
    hide Inv;
  }

  lemma OwnQueueLive(s: Cfq, ch: Chains, c: Pid)
    requires Inv(s, ch) && c in s.cic
    ensures s.cic[c] in s.mem
  {
    NodeLink(s.mem, ch, s.cic[c]);
  }

  lemma PrepareKeeps(s: Cfq, ch: Chains, c: Pid, slot: Addr) returns (ch': Chains)
    requires Inv(s, ch) && slot !in s.mem
    ensures Inv(Prepare(s, c, slot), ch') && c in Prepare(s, c, slot).cic && Prepare(s, c, slot).rqs == s.rqs
  {
    hide Inv, SplitCfqq, MergeCfqqs;
    if c in s.cic { OwnQueueLive(s, ch, c); }
    var s1 := s;
    ch' := ch;
    if c in s.cic && s.mem[s.cic[c]].coop && s.mem[s.cic[c]].splitCoop {
      ch' := SplitKeeps(s, ch, c);
      s1 := SplitCfqq(s, c);
    }
    if c !in s1.cic {
      GetQueueKeeps(s1, ch', c, slot);
      ch' := ch'[slot := {slot}];
    } else {
      MergeKeeps(s1, ch', c);
      ch' := Prune(MergeCfqqs(s1, c).cic, ch');
    }
  }

  /** Every step keeps the counts balanced. */
  lemma StepKeepsInv(s: Cfq, ch: Chains, st: Step) returns (ch': Chains)
    requires Inv(s, ch) && Enabled(s, st)
    ensures Inv(Next(s, st), ch')
  {
    match st
    case DoSetRequest(c, write, r, slot) =>
      ch' := PrepareKeeps(s, ch, c, slot);
      AllocateKeeps(Prepare(s, c, slot), ch', c, write, r);
      hide Inv, Prepare;
    case DoPutRequest(r) =>
      PutRequestKeeps(s, ch, r);
      ch' := ch;
      hide Inv;
    case DoSetupMerge(q, n) =>
      ch' := SetupMergeKeeps(s, ch, q, n);
      hide Inv;
    case DoExit(c) =>
      LeaveKeeps(s, ch, c);
      ch' := Prune(s.cic - {c}, ch);
      hide Inv;
    case DoFlags(q, splitCoop) =>
      FlagsKeep(s, ch, q, s.mem[q].coop, splitCoop);
      ch' := ch;
      hide Inv;
  }

  lemma {:induction false} RunsKeepInv(s: Cfq, ch: Chains, steps: seq<Step>) returns (ch': Chains)
    requires Inv(s, ch) && IsRun(s, steps)
    ensures Inv(RunTo(s, steps), ch')
    decreases steps
  {
    hide Inv, Enabled, Next;
    ch' := ch;
    if steps != [] {
      ch' := StepKeepsInv(s, ch, steps[0]);
      ch' := RunsKeepInv(Next(s, steps[0]), ch', steps[1..]);
    }
  }

  /** The reference counts are balanced in every state that a run reaches from an idle
      scheduler: each live queue has as many process references as there are processes
      whose queue reaches it along merge links, the links never form a loop, and every
      queue met on the way is live. */
  lemma RefsBalanced(steps: seq<Step>) returns (ch: Chains)
    requires IsRun(Cfq(map[], map[], map[]), steps)
    ensures var s := RunTo(Cfq(map[], map[], map[]), steps);
      && Forest(s.mem, ch)
      && (forall c :: c in s.cic ==> s.cic[c] in ch)
      && (forall a :: a in s.mem ==> s.mem[a].ProcessRefs() == |Reaching(s.cic, ch, a)|)
      && (forall a :: a in s.mem ==> 0 < s.mem[a].ref && 0 <= s.mem[a].allocRead && 0 <= s.mem[a].allocWrite)
      && (forall r :: r in s.rqs ==> s.rqs[r].cfqq in s.mem)
      && (s.cic == map[] && s.rqs == map[] ==> s.mem == map[])
  {
    var s0 := Cfq(map[], map[], map[]);
    assert Inv(s0, map[]);
    ch := RunsKeepInv(s0, map[], steps);
    var s := RunTo(s0, steps);
    hide RunTo, IsRun, Node, Reaching, Held;
    forall a | a in s.mem
      ensures s.mem[a].ProcessRefs() == |Reaching(s.cic, ch, a)| && 0 < s.mem[a].ref
      ensures 0 <= s.mem[a].allocRead && 0 <= s.mem[a].allocWrite
    {
      assert Balanced(s, ch, a);
    }
    if s.cic == map[] && s.rqs == map[] { NothingLeft(s, ch); }
  }

  /** When the last process is gone and the last request is freed, no queue is left. */
  lemma NothingLeft(s: Cfq, ch: Chains)
    requires Inv(s, ch) && s.cic == map[] && s.rqs == map[]
    ensures s.mem == map[]
  {
    assert forall a :: Reaching(s.cic, ch, a) == {};
    assert forall a, write :: Held(s.rqs, a, write) == {};
    hide Reaching, Held, Forest;
    assert s.mem.Keys == {};
  }

  lemma MergeNothing(s: Cfq, c: Pid)
    requires c in s.cic && s.cic[c] in s.mem
    ensures s.mem[s.cic[c]].newCfqq.None? ==> MergeCfqqs(s, c) == s
  {
  }

  /** When freeing a request frees its queue, it was the queue's only request. */
  lemma LastRequest(s: Cfq, ch: Chains, r: RqId)
    requires Inv(s, ch) && r in s.rqs
    ensures s.rqs[r].cfqq in s.mem
    ensures s.mem[s.rqs[r].cfqq].ref == 1 ==> s.mem[s.rqs[r].cfqq].Allocated() == 1
  {
    hide Node, Forest, Reaching, Held;
    HeldMember(s.rqs, r);
    assert Balanced(s, ch, s.rqs[r].cfqq);
  }
}
