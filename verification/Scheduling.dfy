/** The scheduler of pkg/scheduler/queue.go as operations on values.  The class
    in GlobalScheduler.dfy is proved to compute exactly these functions. */
module Scheduling {
  import opened Types
  import opened HeapOrder

  datatype Sched = Sched(
    maxQueueSize: int,
    jobs: map<string, JobRec>,
    queue: seq<JobSpec>,
    groups: map<string, GroupRec>,
    writes: seq<WriteOp>)

  function NewSched(maxQueueSize: int): Sched {
    Sched(maxQueueSize, map[], [], map[], [])
  }

  /** Where the heap array holds the job, or its length when it does not. */
  function Position(q: seq<JobSpec>, id: string): (p: nat)
    ensures p <= |q|
    ensures p < |q| ==> q[p].id == id
    ensures forall k | 0 <= k < p :: q[k].id != id
  {
    if q == [] || q[0].id == id then 0 else 1 + Position(q[1..], id)
  }

  /** The first element of the heap array that satisfies f. */
  function FirstMatch(q: seq<JobSpec>, f: JobSpec -> bool): (p: nat)
    ensures p <= |q|
    ensures p < |q| ==> f(q[p])
    ensures forall k | 0 <= k < p :: !f(q[k])
  {
    if q == [] || f(q[0]) then 0 else 1 + FirstMatch(q[1..], f)
  }

  function Without(q: seq<JobSpec>, id: string): seq<JobSpec> {
    var p := Position(q, id);
    if p < |q| then Removed(q, p) else q
  }

  predicate Full(s: Sched) {
    s.maxQueueSize > 0 && |s.queue| >= s.maxQueueSize
  }

  /** Store a record and notify the persistence hook. */
  function Put(s: Sched, rec: JobRec): Sched {
    s.(jobs := s.jobs[rec.spec.id := rec], writes := s.writes + [JobWrite(rec.spec.id)])
  }

  function Enqueue(s: Sched, rec: JobRec): Sched {
    if Full(s) then s else Put(s, rec.(state := Queued)).(queue := Pushed(s.queue, rec.spec))
  }

  function Lookup(s: Sched, id: string): Option<JobRec> {
    if id in s.jobs then Some(s.jobs[id]) else None
  }

  /** What Peek and Dequeue return. */
  function Top(s: Sched): Option<JobRec> {
    if s.queue == [] then None else Lookup(s, s.queue[0].id)
  }

  function Dequeue(s: Sched): Sched {
    if s.queue == [] then s else s.(queue := Popped(s.queue))
  }

  function Backfill(s: Sched, f: JobSpec -> bool): Sched {
    var p := FirstMatch(s.queue, f);
    if p < |s.queue| then s.(queue := Removed(s.queue, p)) else s
  }

  function BackfillChoice(s: Sched, f: JobSpec -> bool): Option<JobRec> {
    var p := FirstMatch(s.queue, f);
    if p < |s.queue| then Lookup(s, s.queue[p].id) else None
  }

  lemma FirstMatchIs(q: seq<JobSpec>, f: JobSpec -> bool, p: nat)
    requires p <= |q| && (p < |q| ==> f(q[p]))
    requires forall k | 0 <= k < p :: !f(q[k])
    ensures FirstMatch(q, f) == p
  {
  }

  predicate InState(s: Sched, id: string, st: JobState) {
    id in s.jobs && s.jobs[id].state == st
  }

  function RemoveById(s: Sched, id: string): Sched {
    if InState(s, id, Queued) then s.(queue := Without(s.queue, id)) else s
  }

  predicate Cancellable(s: Sched, id: string) {
    InState(s, id, Queued) || InState(s, id, Running)
  }

  function Cancel(s: Sched, id: string, now: int): Sched {
    if !Cancellable(s, id) then s
    else
      var rec := s.jobs[id].(state := Cancelled, endTime := now);
      Put(s, rec).(queue := RemoveById(s, id).queue)
  }

  /** The record after Requeue: runtime fields reset. */
  function Reset(rec: JobRec, incrementRetry: bool): JobRec {
    rec.(retryCount := if incrementRetry then rec.retryCount + 1 else rec.retryCount,
         state := Queued, worker := "", startTime := 0, endTime := 0, output := "", error := "")
  }

  function Requeue(s: Sched, id: string, incrementRetry: bool): Sched {
    if id !in s.jobs then s
    else Put(s, Reset(s.jobs[id], incrementRetry)).(queue := Pushed(s.queue, s.jobs[id].spec))
  }

  function MarkRunning(s: Sched, id: string, worker: string, now: int): Sched {
    if id !in s.jobs then s
    else Put(s, s.jobs[id].(state := Running, worker := worker, startTime := now))
  }

  function RequeueRunning(s: Sched, id: string): Sched {
    if !InState(s, id, Running) then s
    else Put(s, s.jobs[id].(state := Queued, worker := "", startTime := 0))
         .(queue := Pushed(s.queue, s.jobs[id].spec))
  }

  function MarkCompleted(s: Sched, id: string, success: bool, output: string, error: string, now: int): Sched {
    if id !in s.jobs || s.jobs[id].state == Cancelled then s
    else Put(s, s.jobs[id].(state := if success then Completed else Failed,
                            output := output, error := error, endTime := now))
  }

  function PutGroup(s: Sched, g: GroupRec): Sched {
    s.(groups := s.groups[g.id := g], writes := s.writes + [GroupWrite(g.id)])
  }

  function SetGroupState(s: Sched, gid: string, st: GroupState): Sched {
    if gid !in s.groups then s else PutGroup(s, s.groups[gid].(state := st))
  }

  // ---------- listings ----------
  // The source ranges over Go maps, so a listing may come in any order.

  ghost predicate DistinctJobs(recs: seq<JobRec>) {
    forall i, j | 0 <= i < j < |recs| :: recs[i].spec.id != recs[j].spec.id
  }

  /** The records of exactly the jobs that satisfy `keep`, each once. */
  ghost predicate Lists(s: Sched, keep: JobRec -> bool, recs: seq<JobRec>) {
    && DistinctJobs(recs)
    && (forall r | r in recs :: r.spec.id in s.jobs && s.jobs[r.spec.id] == r && keep(r))
    && (forall id | id in s.jobs && keep(s.jobs[id]) :: s.jobs[id] in recs)
  }

  /** The filter of RunningJobs. */
  function RunsAnywhere(): JobRec -> bool {
    (rec: JobRec) => rec.state == Running
  }

  /** The filter of RunningJobsOnNode. */
  function RunsOn(node: string): JobRec -> bool {
    (rec: JobRec) => rec.state == Running && rec.worker == node
  }

  ghost predicate DistinctGroups(gs: seq<GroupRec>) {
    forall i, j | 0 <= i < j < |gs| :: gs[i].id != gs[j].id
  }

  predicate GroupsNamed(s: Sched) {
    forall gid | gid in s.groups :: s.groups[gid].id == gid
  }

  /** The records of exactly the PENDING groups, each once. */
  ghost predicate ListsPending(s: Sched, gs: seq<GroupRec>) {
    && DistinctGroups(gs)
    && (forall g | g in gs :: g.id in s.groups && s.groups[g.id] == g && g.state == GroupPending)
    && (forall gid | gid in s.groups && s.groups[gid].state == GroupPending :: s.groups[gid] in gs)
  }
}
