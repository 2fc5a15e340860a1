/** GlobalScheduler of pkg/scheduler/queue.go: job and group objects updated in
    place, shared by the tables, the heap and the database writer's channel. */
module GlobalScheduler {
  import opened Types
  import opened HeapOrder
  import opened JobQueue
  import S = Scheduling

  class GlobalScheduler {
    const queue: JobQueue
    const maxQueueSize: int
    var jobs: map<string, Job>
    var groups: map<string, GroupRec>
    var writes: seq<WriteOp>  // the channel behind the persistence hooks
    ghost var model: S.Sched  // the value all of the above represents
    ghost var Repr: set<object>

    /** The objects hold the model, and every job knows where the heap has it. */
    ghost predicate Valid()
      reads this, Repr
    {
      Coherent() && queue.Indexed()
    }

    ghost predicate Coherent()
      reads this, Repr
    {
      && {this, queue} <= Repr
      && model == S.Sched(maxQueueSize, model.jobs, queue.View(), groups, writes)
      && jobs.Keys == model.jobs.Keys
      && (forall id | id in jobs :: jobs[id] in Repr && Represents(jobs[id], id))
      && (forall x | x in queue.Members() :: Tracked(x))
      && queue.Members() <= Repr
    }

    ghost predicate Tracked(x: Job)
      reads this
    {
      x.spec.id in jobs && jobs[x.spec.id] == x
    }

    /** The object holds the record tracked under id, and its back pointer is -1
        outside the heap; inside, queue.Indexed() makes it exact. */
    ghost predicate Represents(x: Job, id: string)
      reads this, x, queue
      requires id in model.jobs
    {
      && x.spec.id == id
      && x.Rec() == model.jobs[id]
      && (x in queue.Members() || x.index == -1)
    }

    constructor (maxQueueSize: int)
      ensures Valid() && model == S.NewSched(maxQueueSize)
      ensures fresh(Repr) && jobs == map[] && groups == map[]
    {
      this.maxQueueSize := maxQueueSize;
      queue := new JobQueue();
      jobs, groups, writes := map[], map[], [];
      model := S.NewSched(maxQueueSize);
      Repr := {this, queue};
    }

    /** What callers rely on about one job id. */
    lemma Known(id: string)
      requires Valid()
      ensures {this, queue} <= Repr && queue.Members() <= Repr
      ensures id in jobs <==> id in model.jobs
      ensures id in jobs ==> jobs[id] in Repr && Tracked(jobs[id]) && jobs[id].Rec() == model.jobs[id]
    {
      assert id in jobs ==> Represents(jobs[id], id);
    }

    /** A tracked job that is not in the heap has no index. */
    lemma OutsideHeap(id: string)
      requires Valid() && (id in model.jobs ==> model.jobs[id].spec !in model.queue)
      ensures id in jobs ==> jobs[id].index == -1
    {
      assert id in jobs ==> Represents(jobs[id], id);
      assert forall i | 0 <= i < |queue.items| :: queue.items[i].spec == model.queue[i];
    }

    // ---------- the pieces the operations are made of ----------

    /** heap.Push of a tracked job. */
    method HeapPush(job: Job)
      requires Valid() && Tracked(job)
      modifies queue, queue.Members()`index, job`index, this`model
      ensures Coherent()
      ensures old(job.index) == -1 ==> Valid()
      ensures model == old(model).(queue := Pushed(old(model.queue), job.spec))
    {
      hide Pushed, JobQueue.View;
      queue.Push(job);
      model := model.(queue := Pushed(model.queue, job.spec));
    }

    /** heap.Remove at a valid index: that job leaves the heap. */
    method HeapRemove(i: nat) returns (job: Job)
      requires Valid() && i < |queue.items|
      modifies queue, queue.Members()`index, this`model
      ensures Valid() && Tracked(job)
      ensures job == old(queue.items[i]) && job.spec == old(model.queue)[i] && job.index == -1
      ensures model == old(model).(queue := Removed(old(model.queue), i))
    {
      hide Removed, Specs;
      assert queue.items[i] in queue.Members();
      job := queue.Remove(i);
      model := model.(queue := Removed(model.queue, i));
    }

    /** heap.Pop of a heap that is not empty. */
    method HeapPop() returns (job: Job)
      requires Valid() && queue.items != []
      modifies queue, queue.Members()`index, this`model
      ensures Valid() && Tracked(job)
      ensures job.spec == old(model.queue)[0] && job.index == -1
      ensures model == old(model).(queue := Popped(old(model.queue)))
    {
      hide Popped;
      assert queue.items[0] in queue.Members();
      job := queue.Pop();
      model := model.(queue := Popped(model.queue));
    }

    /** Take the job out of the heap if its back pointer says it is there. */
    method Unqueue(job: Job)
      requires Valid() && Tracked(job)
      modifies queue, queue.Members()`index, this`model
      ensures Valid() && job.index == -1
      ensures model == old(model).(queue := S.Without(old(model.queue), job.spec.id))
    {
      ghost var p := S.Position(model.queue, job.spec.id);
      assert p < |queue.items| ==> queue.items[p] in queue.Members();
      if 0 <= job.index < |queue.items| {
        assert job in queue.Members();
        var i: nat :| i < |queue.items| && queue.items[i] == job;
        assert i == job.index == p;
        var _ := HeapRemove(job.index);
      } else {
        assert job !in queue.Members();
      }
    }

    method NotifyJobChange(job: Job)
      requires Valid() && Tracked(job)
      modifies this`writes, this`model
      ensures Valid()
      ensures model == old(model).(writes := old(model.writes) + [JobWrite(job.spec.id)])
    {
      writes := writes + [JobWrite(job.spec.id)];
      model := model.(writes := model.writes + [JobWrite(job.spec.id)]);
    }

    /** gs.jobs[job.ID] = job, for a job not tracked before. */
    method Track(job: Job)
      requires Valid() && job.spec.id !in jobs && job.index == -1
      modifies this`jobs, this`model, this`Repr
      ensures Valid() && Repr == old(Repr) + {job}
      ensures jobs == old(jobs)[job.spec.id := job]
      ensures model == old(model).(jobs := old(model.jobs)[job.spec.id := job.Rec()])
    {
      jobs := jobs[job.spec.id := job];
      Repr := Repr + {job};
      model := model.(jobs := model.jobs[job.spec.id := job.Rec()]);
    }

    /** Assign the runtime fields of a tracked job and notify the hook. */
    method Update(job: Job, rec: JobRec)
      requires Valid() && Tracked(job) && rec.spec == job.spec
      modifies job, this`model, this`writes
      ensures Valid()
      ensures model == S.Put(old(model), rec)
      ensures job.index == old(job.index)
    {
      hide JobQueue.View, JobQueue.Members;
      job.Set(rec);
      model := model.(jobs := model.jobs[job.spec.id := rec]);
      NotifyJobChange(job);
    }

    // ---------- the operations ----------

    method Enqueue(job: Job) returns (ok: bool)
      requires Valid() && job.spec.id !in jobs && job !in Repr && job.index == -1
      modifies Repr, job
      ensures Valid() && Repr == (if ok then old(Repr) + {job} else old(Repr))
      ensures model == S.Enqueue(old(model), old(job.Rec()))
      ensures ok <==> !S.Full(old(model))
    {
      hide Pushed;
      if maxQueueSize > 0 && |queue.items| >= maxQueueSize {
        return false;
      }
      job.state := Queued;
      Track(job);
      HeapPush(job);
      NotifyJobChange(job);
      ok := true;
    }

    method Dequeue() returns (r: Option<JobRec>)
      requires Valid()
      modifies Repr
      ensures Valid() && Repr == old(Repr)
      ensures model == S.Dequeue(old(model))
      ensures r == S.Top(old(model))
    {
      if |queue.items| == 0 {
        return None;
      }
      var job := HeapPop();
      r := Some(job.Rec());
    }

    method Peek() returns (r: Option<JobRec>)
      requires Valid()
      ensures r == S.Top(model)
    {
      if |queue.items| == 0 {
        return None;
      }
      assert queue.items[0] in queue.Members();
      r := Some(queue.items[0].Rec());
    }

    method Backfill(matchFunc: JobSpec -> bool) returns (r: Option<JobRec>)
      requires Valid()
      modifies Repr
      ensures Valid() && Repr == old(Repr)
      ensures model == S.Backfill(old(model), matchFunc)
      ensures r == S.BackfillChoice(old(model), matchFunc)
      ensures r == None ==> model == old(model)
    {
      var i := 0;
      while i < |queue.items|
        invariant 0 <= i <= |queue.items|
        invariant forall k | 0 <= k < i :: !matchFunc(model.queue[k])
      {
        if matchFunc(queue.items[i].spec) {
          S.FirstMatchIs(model.queue, matchFunc, i);
          var job := HeapRemove(i);
          return Some(job.Rec());
        }
        i := i + 1;
      }
      S.FirstMatchIs(model.queue, matchFunc, i);
      r := None;
    }

    method RemoveById(jobId: string) returns (r: Option<JobRec>)
      requires Valid()
      modifies Repr
      ensures Valid() && Repr == old(Repr)
      ensures model == S.RemoveById(old(model), jobId)
      ensures r == if S.InState(old(model), jobId, Queued) then Some(old(model).jobs[jobId]) else None
    {
      if jobId !in jobs || jobs[jobId].state != Queued {
        return None;
      }
      var job := jobs[jobId];
      Unqueue(job);
      r := Some(job.Rec());
    }

    method Cancel(jobId: string, now: int) returns (r: Option<JobRec>, ok: bool)
      requires Valid()
      modifies Repr
      ensures Valid() && Repr == old(Repr)
      ensures model == S.Cancel(old(model), jobId, now)
      ensures ok <==> S.Cancellable(old(model), jobId)
      ensures r == S.Lookup(model, jobId)
    {
      Known(jobId);
      hide Valid, Coherent;
      if jobId !in jobs {
        return None, false;
      }
      var job := jobs[jobId];
      if job.state == Queued {
        Unqueue(job);
        Update(job, job.Rec().(state := Cancelled, endTime := now));
      } else if job.state == Running {
        Update(job, job.Rec().(state := Cancelled, endTime := now));
      } else {
        return Some(job.Rec()), false;
      }
      return Some(job.Rec()), true;
    }

    /** The code pushes the job without looking; the back pointers stay correct if
        the job was outside the heap. */
    method Requeue(jobId: string, incrementRetry: bool) returns (r: Option<JobRec>)
      requires Valid()
      modifies Repr
      ensures Coherent() && Repr == old(Repr)
      ensures old(jobId in jobs ==> jobs[jobId].index == -1) ==> Valid()
      ensures model == S.Requeue(old(model), jobId, incrementRetry)
      ensures r == S.Lookup(model, jobId)
    {
      Known(jobId);
      hide Valid, Coherent, Pushed;
      if jobId !in jobs {
        return None;
      }
      var job := jobs[jobId];
      Update(job, S.Reset(job.Rec(), incrementRetry));
      HeapPush(job);
      r := Some(job.Rec());
    }

    method MarkRunning(jobId: string, workerNode: string, now: int)
      requires Valid()
      modifies Repr
      ensures Valid() && Repr == old(Repr)
      ensures model == S.MarkRunning(old(model), jobId, workerNode, now)
    {
      Known(jobId);
      hide Valid, Coherent;
      if jobId in jobs {
        var job := jobs[jobId];
        Update(job, job.Rec().(state := Running, worker := workerNode, startTime := now));
      }
    }

    /** As Requeue, for a RUNNING job. */
    method RequeueRunningJob(jobId: string) returns (requeued: bool)
      requires Valid()
      modifies Repr
      ensures Coherent() && Repr == old(Repr)
      ensures old(jobId in jobs && S.InState(model, jobId, Running) ==> jobs[jobId].index == -1) ==> Valid()
      ensures model == S.RequeueRunning(old(model), jobId)
      ensures requeued <==> S.InState(old(model), jobId, Running)
    {
      Known(jobId);
      hide Valid, Coherent, Pushed;
      if jobId !in jobs || jobs[jobId].state != Running {
        return false;
      }
      var job := jobs[jobId];
      Update(job, job.Rec().(state := Queued, worker := "", startTime := 0));
      HeapPush(job);
      requeued := true;
    }

    method MarkCompleted(jobId: string, success: bool, output: string, errMsg: string, now: int)
      requires Valid()
      modifies Repr
      ensures Valid() && Repr == old(Repr)
      ensures model == S.MarkCompleted(old(model), jobId, success, output, errMsg, now)
    {
      Known(jobId);
      hide Valid, Coherent;
      if jobId !in jobs {
        return;
      }
      var job := jobs[jobId];
      if job.state == Cancelled {
        return;
      }
      var outcome := if success then Completed else Failed;
      Update(job, job.Rec().(state := outcome, output := output, error := errMsg, endTime := now));
    }

    method GetJob(jobId: string) returns (r: Option<JobRec>)
      requires Valid()
      ensures r == S.Lookup(model, jobId)
    {
      r := if jobId in jobs then Some(jobs[jobId].Rec()) else None;
    }

    /** ListJobs with a filter: RunningJobs and RunningJobsOnNode are instances. */
    method ListJobs(keep: JobRec -> bool) returns (recs: seq<JobRec>)
      requires Valid()
      ensures S.Lists(model, keep, recs)
    {
      recs := [];
      var rest := jobs.Keys;
      while rest != {}
        invariant rest <= jobs.Keys
        invariant S.DistinctJobs(recs)
        invariant forall r | r in recs ::
            r.spec.id in model.jobs && r.spec.id !in rest && model.jobs[r.spec.id] == r && keep(r)
        invariant forall id | id in model.jobs && id !in rest && keep(model.jobs[id]) :: model.jobs[id] in recs
        decreases rest
      {
        var id :| id in rest;
        rest := rest - {id};
        var rec := jobs[id].Rec();
        if keep(rec) {
          recs := recs + [rec];
        }
      }
    }

    /** The database writer receives from the channel. */
    method TakeWrite() returns (op: WriteOp)
      requires Valid() && model.writes != []
      modifies this`writes, this`model
      ensures Valid()
      ensures op == old(model.writes)[0] && model == old(model).(writes := old(model.writes)[1..])
    {
      op := writes[0];
      writes := writes[1..];
      model := model.(writes := writes);
    }

    // ---------- groups ----------

    method RegisterGroup(g: GroupRec)
      requires Valid()
      modifies this`groups, this`writes, this`model
      ensures Valid()
      ensures model == S.PutGroup(old(model), g)
    {
      groups := groups[g.id := g];
      writes := writes + [GroupWrite(g.id)];
      model := S.PutGroup(model, g);
    }

    method GetGroup(gid: string) returns (r: Option<GroupRec>)
      requires Valid()
      ensures r == if gid in model.groups then Some(model.groups[gid]) else None
    {
      r := if gid in groups then Some(groups[gid]) else None;
    }

    method SetGroupState(gid: string, st: GroupState)
      requires Valid()
      modifies this`groups, this`writes, this`model
      ensures Valid()
      ensures model == S.SetGroupState(old(model), gid, st)
    {
      if gid in groups {
        RegisterGroup(groups[gid].(state := st));
      }
    }

    method PendingGroups() returns (gs: seq<GroupRec>)
      requires Valid() && S.GroupsNamed(model)
      ensures S.ListsPending(model, gs)
    {
      gs := [];
      var rest := groups.Keys;
      while rest != {}
        invariant rest <= groups.Keys
        invariant S.DistinctGroups(gs)
        invariant forall g | g in gs ::
            g.id in groups && g.id !in rest && groups[g.id] == g && g.state == GroupPending
        invariant forall gid | gid in groups && gid !in rest && groups[gid].state == GroupPending :: groups[gid] in gs
        decreases rest
      {
        var gid :| gid in rest;
        rest := rest - {gid};
        if groups[gid].state == GroupPending {
          gs := gs + [groups[gid]];
        }
      }
    }
  }
}
