/** The per-node resource ledger: `gpuTracker` of internal/daemon/master.go. */
module Ledger {
  import opened Types

  datatype Ledger = Ledger(gpus: map<string, int>, cpus: map<string, int>, mem: map<string, int>)

  const EMPTY := Ledger(map[], map[], map[])

  /** What the ledger says is in use on the node. */
  function Held(l: Ledger, node: string): Res {
    Res(Get(l.gpus, node), Get(l.cpus, node), Get(l.mem, node))
  }

  function Charge(m: map<string, int>, node: string, n: int): map<string, int> {
    m[node := Get(m, node) + n]
  }

  /** Subtraction with the delete-at-or-below-zero clamp. */
  function Credit(m: map<string, int>, node: string, n: int): map<string, int> {
    var left := Get(m, node) - n;
    if left <= 0 then m - {node} else m[node := left]
  }

  function Allocated(l: Ledger, node: string, need: Res): Ledger {
    Ledger(Charge(l.gpus, node, need.gpus), Charge(l.cpus, node, need.cpus), Charge(l.mem, node, need.mem))
  }

  function Released(l: Ledger, node: string, need: Res): Ledger {
    Ledger(Credit(l.gpus, node, need.gpus), Credit(l.cpus, node, need.cpus), Credit(l.mem, node, need.mem))
  }

  predicate Covers(have: Res, need: Res) {
    need.gpus <= have.gpus && need.cpus <= have.cpus && need.mem <= have.mem
  }

  lemma AllocateAdds(l: Ledger, node: string, need: Res, other: string)
    ensures Held(Allocated(l, node, need), other)
         == if other == node then Held(l, node).Plus(need) else Held(l, other)
  {
  }

  /** The clamp discards nothing exactly when the ledger covers the release. */
  lemma ReleaseSubtracts(l: Ledger, node: string, need: Res)
    ensures Covers(Held(l, node), need)
        <==> Held(Released(l, node, need), node) == Held(l, node).Minus(need)
    ensures forall other | other != node :: Held(Released(l, node, need), other) == Held(l, other)
  {
  }

  /** Releasing what was allocated restores what every node holds. */
  lemma ReleaseUndoesAllocate(l: Ledger, node: string, need: Res, other: string)
    requires Held(l, node).NonNegative()
    ensures Held(Released(Allocated(l, node, need), node, need), other) == Held(l, other)
  {
    AllocateAdds(l, node, need, node);
    AllocateAdds(l, node, need, other);
    ReleaseSubtracts(Allocated(l, node, need), node, need);
  }

  /** canDispatchResources: each demanded dimension must fit what is left. */
  predicate CanDispatch(l: Ledger, member: Member, need: Res) {
    && (need.gpus > 0 ==> need.gpus <= member.total.gpus && need.gpus <= member.total.gpus - Get(l.gpus, member.name))
    && (need.cpus > 0 ==> need.cpus <= member.total.cpus && need.cpus <= member.total.cpus - Get(l.cpus, member.name))
    && (need.mem > 0 ==> need.mem <= member.total.mem && need.mem <= member.total.mem - Get(l.mem, member.name))
  }

  /** The check admits a job exactly when charging it keeps the node within its
      advertised total. */
  lemma DispatchFits(l: Ledger, member: Member, need: Res)
    requires need.NonNegative() && Held(l, member.name).NonNegative()
    requires Held(l, member.name).Within(member.total)
    ensures CanDispatch(l, member, need)
        <==> Held(Allocated(l, member.name, need), member.name).Within(member.total)
  {
  }

  class GpuTracker {
    var gpusAllocated: map<string, int>
    var cpusAllocated: map<string, int>
    var memAllocated: map<string, int>

    constructor ()
      ensures View() == EMPTY
    {
      gpusAllocated, cpusAllocated, memAllocated := map[], map[], map[];
    }

    function View(): Ledger
      reads this
    {
      Ledger(gpusAllocated, cpusAllocated, memAllocated)
    }

    method Allocate(node: string, need: Res)
      modifies this
      ensures View() == Allocated(old(View()), node, need)
    {
      gpusAllocated := gpusAllocated[node := Get(gpusAllocated, node) + need.gpus];
      cpusAllocated := cpusAllocated[node := Get(cpusAllocated, node) + need.cpus];
      memAllocated := memAllocated[node := Get(memAllocated, node) + need.mem];
    }

    method Release(node: string, need: Res)
      modifies this
      ensures View() == Released(old(View()), node, need)
    {
      gpusAllocated := Deduct(gpusAllocated, node, need.gpus);
      cpusAllocated := Deduct(cpusAllocated, node, need.cpus);
      memAllocated := Deduct(memAllocated, node, need.mem);
    }
  }

  /** Subtract in the table, then delete the entry if nothing is left. */
  method Deduct(table: map<string, int>, node: string, n: int) returns (r: map<string, int>)
    ensures r == Credit(table, node, n)
  {
    r := table[node := Get(table, node) - n];
    if r[node] <= 0 {
      r := r - {node};
    }
  }

  // ---------- the sum the ledger has to equal ----------

  /** What one job holds on a node. */
  function Share(rec: JobRec, node: string): Res {
    if rec.state == Running && rec.worker == node then rec.spec.need else NOTHING
  }

  ghost function Pick(jobs: map<string, JobRec>): string
    requires jobs != map[]
    ensures Pick(jobs) in jobs
  {
    var id :| id in jobs; id
  }

  /** The sum of the demands of the RUNNING jobs placed on a node. */
  ghost function Load(jobs: map<string, JobRec>, node: string): Res
    decreases |jobs|
  {
    if jobs == map[] then NOTHING
    else
      var id := Pick(jobs);
      Share(jobs[id], node).Plus(Load(jobs - {id}, node))
  }

  lemma DropUpdated<V>(m: map<string, V>, id: string, v: V)
    ensures m[id := v] - {id} == m - {id}
  {
  }

  lemma DropAbsent<V>(m: map<string, V>, id: string)
    requires id !in m
    ensures m - {id} == m
  {
  }

  lemma DropsCommute<V>(m: map<string, V>, a: string, b: string)
    ensures m - {a} - {b} == m - {b} - {a}
  {
  }

  lemma LoadUnfolds(jobs: map<string, JobRec>, node: string)
    requires jobs != map[]
    ensures Load(jobs, node) == Share(jobs[Pick(jobs)], node).Plus(Load(jobs - {Pick(jobs)}, node))
  {
  }

  lemma PlusRotates(a: Res, b: Res, c: Res)
    ensures a.Plus(b.Plus(c)) == b.Plus(a.Plus(c))
  {
  }

  lemma PlusExchanges(a: Res, b: Res, c: Res)
    ensures a.Plus(c) == b.Plus(c).Minus(b).Plus(a)
  {
  }

  /** The sum does not depend on the order in which jobs are counted. */
  lemma {:induction false} LoadSplits(jobs: map<string, JobRec>, id: string, node: string)
    requires id in jobs
    ensures Load(jobs, node) == Share(jobs[id], node).Plus(Load(jobs - {id}, node))
    decreases |jobs|
  {
    hide *;
    var k := Pick(jobs);
    LoadUnfolds(jobs, node);
    if k != id {
      LoadSplits(jobs - {k}, id, node);
      LoadSplits(jobs - {id}, k, node);
      DropsCommute(jobs, k, id);
      PlusRotates(Share(jobs[k], node), Share(jobs[id], node), Load(jobs - {k} - {id}, node));
    }
  }

  lemma LoadOfUpdate(jobs: map<string, JobRec>, id: string, rec: JobRec, node: string)
    ensures Load(jobs[id := rec], node) == Share(rec, node).Plus(Load(jobs - {id}, node))
  {
    LoadSplits(jobs[id := rec], id, node);
    DropUpdated(jobs, id, rec);
  }

  lemma LoadUpdated(jobs: map<string, JobRec>, id: string, rec: JobRec, node: string)
    requires id in jobs
    ensures Load(jobs[id := rec], node) == Load(jobs, node).Minus(Share(jobs[id], node)).Plus(Share(rec, node))
  {
    LoadSplits(jobs, id, node);
    LoadOfUpdate(jobs, id, rec, node);
    PlusExchanges(Share(rec, node), Share(jobs[id], node), Load(jobs - {id}, node));
  }

  lemma LoadInserted(jobs: map<string, JobRec>, id: string, rec: JobRec, node: string)
    requires id !in jobs
    ensures Load(jobs[id := rec], node) == Load(jobs, node).Plus(Share(rec, node))
  {
    LoadOfUpdate(jobs, id, rec, node);
    DropAbsent(jobs, id);
  }

  lemma {:induction false} LoadNonNegative(jobs: map<string, JobRec>, node: string)
    requires forall id | id in jobs :: jobs[id].spec.need.NonNegative()
    ensures Load(jobs, node).NonNegative()
    decreases |jobs|
  {
    if jobs != map[] {
      LoadNonNegative(jobs - {Pick(jobs)}, node);
    }
  }

  /** A RUNNING job's demand is part of its node's load. */
  lemma LoadCoversJob(jobs: map<string, JobRec>, id: string)
    requires forall k | k in jobs :: jobs[k].spec.need.NonNegative()
    requires id in jobs && jobs[id].state == Running
    ensures Covers(Load(jobs, jobs[id].worker), jobs[id].spec.need)
  {
    LoadSplits(jobs, id, jobs[id].worker);
    LoadNonNegative(jobs - {id}, jobs[id].worker);
  }

  /** A node without RUNNING jobs carries no load. */
  lemma {:induction false} NoJobsNoLoad(jobs: map<string, JobRec>, node: string)
    requires forall id | id in jobs :: !(jobs[id].state == Running && jobs[id].worker == node)
    ensures Load(jobs, node) == NOTHING
    decreases |jobs|
  {
    if jobs != map[] {
      NoJobsNoLoad(jobs - {Pick(jobs)}, node);
    }
  }
}
