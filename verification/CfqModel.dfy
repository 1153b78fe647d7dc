/** CFQ's queue cooperation.  Queues live at explicit addresses so that a freed queue, a
    stale pointer and a reused address can all be expressed. */
module CfqModel {
  import opened Requests

  type Addr = nat
  type Pid = nat
  type RqId = nat

  /** A queue for the synchronous requests of one or more processes. */
  datatype CfqQueue = CfqQueue(
    ref: int, allocRead: int, allocWrite: int, newCfqq: Option<Addr>, coop: bool, splitCoop: bool)
  {
    function Allocated(): int { allocRead + allocWrite }

    /** References held by processes, now or in advance. */
    function ProcessRefs(): int { ref - Allocated() }
  }

  datatype Rq = Rq(cfqq: Addr, write: bool)

  type Memory = map<Addr, CfqQueue>

  /** `cic` gives each process its queue, `rqs` each allocated request its queue. */
  datatype Cfq = Cfq(mem: Memory, cic: map<Pid, Addr>, rqs: map<RqId, Rq>)

  /** Drops a reference; the last one frees the queue. */
  function Put(mem: Memory, a: Addr): Memory {
    if a !in mem then mem
    else if mem[a].ref == 1 then mem - {a}
    else mem[a := mem[a].(ref := mem[a].ref - 1)]
  }

  /** Drops a reference on every queue from `p` on along the merge chain of `q`. */
  function PutFrom(mem: Memory, p: Option<Addr>, q: Addr, seen: set<Addr>): Memory
    decreases |mem.Keys - seen|
  {
    if p.None? || p.value == q || p.value !in mem || p.value in seen then mem
    else
      var a := p.value;
      var left := Put(mem, a);
      assert left.Keys - (seen + {a}) <= mem.Keys - seen - {a};
      StrictlyFewer(left.Keys - (seen + {a}), mem.Keys - seen, a);
      PutFrom(left, mem[a].newCfqq, q, seen + {a})
  }

  lemma FewerMembers(s: set<Addr>, t: set<Addr>)
    requires s <= t
    ensures |s| <= |t|
  {
    if s != {} {
      var x :| x in s;
      FewerMembers(s - {x}, t - {x});
    }
  }

  lemma StrictlyFewer(s: set<Addr>, t: set<Addr>, a: Addr)
    requires a in t && s <= t - {a}
    ensures |s| < |t|
  {
    FewerMembers(s, t - {a});
  }

  /** A process gives up queue `q`: the references taken in advance along its merge chain
      go, then the one on the queue. */
  function Leave(mem: Memory, q: Addr): Memory {
    if q !in mem then mem else Put(PutFrom(mem, mem[q].newCfqq, q, {}), q)
  }

  /** The end of the merge chain of `n`, or nothing if the chain leads to `q`. */
  function Tail(mem: Memory, q: Addr, n: Addr, seen: set<Addr>): Option<Addr>
    decreases |mem.Keys - seen|
  {
    if n !in mem || n in seen then None
    else
      match mem[n].newCfqq
      case None => Some(n)
      case Some(m) =>
        StrictlyFewer(mem.Keys - (seen + {n}), mem.Keys - seen, n);
        if m == q then None else Tail(mem, q, m, seen + {n})
  }

  function Link(mem: Memory, from: Addr, to: Addr): Memory
    requires from in mem && to in mem
  {
    var refs := mem[from].ProcessRefs();
    mem[from := mem[from].(newCfqq := Some(to))][to := mem[to].(ref := mem[to].ref + refs)]
  }

  /** Schedules the merge of `q` with the queue at the end of the chain of `n`, in the
      direction of less work, taking the references its processes will need. */
  function SetupMerge(mem: Memory, q: Addr, n: Addr): Memory
    requires q in mem && n in mem
  {
    if mem[n].ProcessRefs() == 0 then mem
    else
      match Tail(mem, q, n, {})
      case None => mem
      case Some(t) =>
        if t !in mem || t == q || mem[q].ProcessRefs() == 0 || mem[t].ProcessRefs() == 0 then mem
        else if mem[t].ProcessRefs() >= mem[q].ProcessRefs() then Link(mem, q, t)
        else Link(mem, t, q)
  }

  /** A process without a queue gets a new one, at an address not in use. */
  function GetQueue(s: Cfq, c: Pid, slot: Addr): Cfq {
    s.(mem := s.mem[slot := CfqQueue(1, 0, 0, None, false, false)], cic := s.cic[c := slot])
  }

  /** A process moves on to the queue its own is to be merged with. */
  function MergeCfqqs(s: Cfq, c: Pid): Cfq {
    if c !in s.cic || s.cic[c] !in s.mem || s.mem[s.cic[c]].newCfqq.None? then s
    else
      var q := s.cic[c];
      var n := s.mem[q].newCfqq.value;
      if n !in s.mem then s
      else s.(cic := s.cic[c := n], mem := Put(s.mem[n := s.mem[n].(coop := true)], q))
  }

  /** A process whose shared queue is to be broken apart leaves it, unless it is the last. */
  function SplitCfqq(s: Cfq, c: Pid): Cfq {
    if c !in s.cic || s.cic[c] !in s.mem then s
    else
      var q := s.cic[c];
      if s.mem[q].ProcessRefs() == 1
      then s.(mem := s.mem[q := s.mem[q].(coop := false, splitCoop := false)])
      else s.(cic := s.cic - {c}, mem := Leave(s.mem, q))
  }

  function ExitProcess(s: Cfq, c: Pid): Cfq {
    if c !in s.cic then s else s.(cic := s.cic - {c}, mem := Leave(s.mem, s.cic[c]))
  }

  /** The queue a process allocates its next request from. */
  function Prepare(s: Cfq, c: Pid, slot: Addr): Cfq {
    if c !in s.cic || s.cic[c] !in s.mem then GetQueue(s, c, slot)
    else
      var q := s.mem[s.cic[c]];
      var s1 := if q.coop && q.splitCoop then SplitCfqq(s, c) else s;
      if c !in s1.cic then GetQueue(s1, c, slot) else MergeCfqqs(s1, c)
  }

  function Allocate(s: Cfq, c: Pid, write: bool, r: RqId): Cfq {
    if c !in s.cic || s.cic[c] !in s.mem then s
    else
      var a := s.cic[c];
      var q := s.mem[a];
      s.(mem := s.mem[a := q.(ref := q.ref + 1, allocRead := if write then q.allocRead else q.allocRead + 1,
                              allocWrite := if write then q.allocWrite + 1 else q.allocWrite)],
         rqs := s.rqs[r := Rq(a, write)])
  }

  function SetRequest(s: Cfq, c: Pid, write: bool, r: RqId, slot: Addr): Cfq {
    Allocate(Prepare(s, c, slot), c, write, r)
  }

  function PutRequest(s: Cfq, r: RqId): Cfq {
    if r !in s.rqs || s.rqs[r].cfqq !in s.mem then s
    else
      var a := s.rqs[r].cfqq;
      var q := s.mem[a];
      var q' := if s.rqs[r].write then q.(allocWrite := q.allocWrite - 1) else q.(allocRead := q.allocRead - 1);
      s.(mem := Put(s.mem[a := q'], a), rqs := s.rqs - {r})
  }

  datatype Step =
    | DoSetRequest(c: Pid, write: bool, r: RqId, slot: Addr)
    | DoPutRequest(r: RqId)
    | DoSetupMerge(q: Addr, n: Addr)
    | DoExit(c: Pid)
    | DoFlags(q: Addr, splitCoop: bool)     // a shared queue became, or ceased to be, seeky

  /** The scheduler only asks to merge two different queues, the first of which is not
      scheduled to merge yet. */
  predicate Enabled(s: Cfq, st: Step) {
    match st
    case DoSetRequest(c, _, r, slot) => r !in s.rqs && slot !in s.mem
    case DoPutRequest(r) => r in s.rqs
    case DoSetupMerge(q, n) => q in s.mem && n in s.mem && q != n && s.mem[q].newCfqq.None?
    case DoExit(c) => c in s.cic
    case DoFlags(q, _) => q in s.mem
  }

  function Next(s: Cfq, st: Step): Cfq
    requires Enabled(s, st)
  {
    match st
    case DoSetRequest(c, write, r, slot) => SetRequest(s, c, write, r, slot)
    case DoPutRequest(r) => PutRequest(s, r)
    case DoSetupMerge(q, n) => s.(mem := SetupMerge(s.mem, q, n))
    case DoExit(c) => ExitProcess(s, c)
    case DoFlags(q, splitCoop) => s.(mem := s.mem[q := s.mem[q].(splitCoop := splitCoop)])
  }

  predicate IsRun(s: Cfq, steps: seq<Step>)
    decreases steps
  {
    steps == [] || (Enabled(s, steps[0]) && IsRun(Next(s, steps[0]), steps[1..]))
  }

  function RunTo(s: Cfq, steps: seq<Step>): Cfq
    requires IsRun(s, steps)
    decreases steps
  {
    if steps == [] then s else RunTo(Next(s, steps[0]), steps[1..])
  }
}
