/** schedulerServer of internal/daemon/master.go and what runs around it: handlers,
    dispatch loop, enforcers, gossip hook, database writer and restore.  Each
    method is proved to take the view of the state through the step of
    MasterSteps.dfy that bears its name. */
module SchedulerServer {
  import opened Types
  import JobQueue
  import S = Scheduling
  import GlobalScheduler
  import Ledger
  import CB = CircuitBreaker
  import Fairshare
  import M = MasterSteps
  import opened Placement
  import CoreSteps
  import Submission
  import Restart

  datatype Submitted = Accepted(id: string) | QueueFull | Draining

  class SchedulerServer {
    const queue: GlobalScheduler.GlobalScheduler
    const tracker: Ledger.GpuTracker
    const cb: CB.CircuitBreaker
    const fairshare: Fairshare.FairshareCalculator
    const cfg: M.Config
    var draining: bool
    var pending: map<string, int>
    var timers: seq<M.Timer>
    var deadLetters: map<string, JobRec>
    var saved: M.Image
    var members: seq<Member>
    var sent: seq<Payload>

    ghost predicate Valid()
      reads this, queue, queue.Repr
    {
      && queue.Valid() && queue in queue.Repr
      && this !in queue.Repr && tracker !in queue.Repr && cb !in queue.Repr && fairshare !in queue.Repr
    }

    /** The state as a value. */
    ghost function View(): M.Master
      reads this, queue, tracker, cb, fairshare
    {
      M.Master(queue.model, tracker.View(), cb.View(), fairshare.userUsage, pending, timers, deadLetters, saved,
               members, sent)
    }

    ghost function Footprint(): set<object>
      reads queue
    {
      {this, tracker, cb, fairshare} + queue.Repr
    }

    constructor (cfg: M.Config, maxQueueSize: int)
      ensures Valid() && View() == M.Fresh(maxQueueSize)
      ensures this.cfg == cfg && !draining
    {
      this.cfg := cfg;
      queue := new GlobalScheduler.GlobalScheduler(maxQueueSize);
      tracker := new Ledger.GpuTracker();
      cb := new CB.CircuitBreaker();
      fairshare := new Fairshare.FairshareCalculator();
      draining := false;
      pending, timers, deadLetters, saved, members, sent := map[], [], map[], M.Image(map[], map[]), [], [];
    }

    // ---------- submission ----------

    /** Allocate a job object and enqueue it. */
    method Enlist(rec: JobRec) returns (ok: bool)
      requires Valid() && rec.spec.id !in queue.jobs
      modifies queue.Repr
      ensures Valid() && fresh(queue.Repr - old(queue.Repr))
      ensures queue.model == S.Enqueue(old(queue.model), rec)
      ensures ok <==> !S.Full(old(queue.model))
      ensures queue.jobs.Keys == old(queue.jobs.Keys) + (if ok then {rec.spec.id} else {})
    {
      var job := new JobQueue.Job(rec);
      ok := queue.Enqueue(job);
    }

    /** The job a request asks for, its priority raised by the user's penalty. */
    method JobFor(id: string, req: M.JobRequest, now: int) returns (spec: JobSpec)
      ensures spec == M.SingleSpec(View(), cfg, id, req, now)
    {
      var priority := if req.priority == 0 then 10 else req.priority;
      var user := if req.user == "" then "anonymous" else req.user;
      var penalty := fairshare.CalculatePenalty(user);
      spec := JobSpec(id, req.requirement, req.command, now, priority + penalty, user, req.walltime, req.need,
                      req.env, cfg.maxRetries, "");
    }

    method SubmitJob(id: string, req: M.JobRequest, now: int) returns (r: Submitted)
      requires Valid() && id !in queue.jobs
      modifies queue.Repr
      ensures Valid() && fresh(queue.Repr - old(queue.Repr))
      ensures View() == if draining then old(View()) else M.SubmitJob(old(View()), cfg, id, req, now)
      ensures r == if draining then Draining else if S.Full(old(View()).sched) then QueueFull else Accepted(id)
    {
      if draining {
        return Draining;
      }
      hide GlobalScheduler.GlobalScheduler.Valid;
      var spec := JobFor(id, req, now);
      var ok := Enlist(NewJob(spec));
      r := if ok then Accepted(id) else QueueFull;
    }

    /** Enqueue the ranks one by one; a full queue stops half way. */
    method EnqueueRanks(gid: string, req: M.GangRequest, now: int) returns (ok: bool)
      requires Valid() && forall r: nat :: M.RankId(gid, r) !in queue.jobs
      modifies queue.Repr
      ensures Valid() && fresh(queue.Repr - old(queue.Repr))
      ensures View() == old(View()).(sched := M.AdmitRanks(old(View()).sched, gid, req, 0, now))
      ensures ok <==> M.AllAdmitted(old(View()).sched, gid, req, 0, now)
    {
      hide GlobalScheduler.GlobalScheduler.Valid;
      var rank: nat := 0;
      while rank < M.Ranks(req)
        invariant 0 <= rank <= M.Ranks(req)
        invariant Valid() && fresh(queue.Repr - old(queue.Repr))
        invariant View() == old(View()).(sched := queue.model)
        invariant forall r: nat | rank <= r :: M.RankId(gid, r) !in queue.jobs
        invariant M.AdmitRanks(queue.model, gid, req, rank, now) == M.AdmitRanks(old(View()).sched, gid, req, 0, now)
        invariant M.AllAdmitted(queue.model, gid, req, rank, now) <==> M.AllAdmitted(old(View()).sched, gid, req, 0,
              now)
      {
        var env := req.job.env["RANK" := M.Itoa(rank)]
                              ["WORLD_SIZE" := M.Itoa(M.Ranks(req))]
                              ["MASTER_PORT" := M.SignedItoa(M.PortOf(req))]
                              ["LOCAL_RANK" := "0"]
                              ["NPROC_PER_NODE" := M.SignedItoa(req.job.need.gpus)];
        var spec := JobSpec(gid + "-r" + M.Itoa(rank), req.job.requirement, req.job.command, now,
                            M.BasePriority(req.job), M.UserOf(req.job), req.job.walltime, req.job.need, env, 0, gid);
        assert spec == M.RankSpec(gid, req, rank, now);
        var admitted := Enlist(NewJob(spec));
        if !admitted {
          return false;
        }
        forall r: nat | rank + 1 <= r ensures M.RankId(gid, r) !in queue.jobs {
          if M.RankId(gid, r) == spec.id {
            Submission.RankIdInjective(gid, r, rank);
          }
        }
        rank := rank + 1;
      }
      ok := true;
    }

    method SubmitDistributedJob(gid: string, req: M.GangRequest, now: int) returns (r: Submitted)
      requires Valid() && forall r: nat :: M.RankId(gid, r) !in queue.jobs
      modifies queue.Repr
      ensures Valid() && fresh(queue.Repr - old(queue.Repr))
      ensures View() == if draining then old(View()) else M.SubmitGang(old(View()), gid, req, now)
      ensures r == if draining then Draining
                   else if M.AllAdmitted(old(View()).sched, gid, req, 0, now) then Accepted(gid) else QueueFull
    {
      if draining {
        return Draining;
      }
      hide GlobalScheduler.GlobalScheduler.Valid;
      var ok := EnqueueRanks(gid, req, now);
      if !ok {
        return QueueFull;
      }
      queue.RegisterGroup(M.GangRec(gid, req, now));
      r := Accepted(gid);
    }

    // ---------- cancellation ----------

    /** What CancelJob and handleGroupCompletion share: cancel, release, tell. */
    method CancelJob(id: string, now: int) returns (job: Option<JobRec>, ok: bool)
      requires Valid()
      modifies Footprint()
      ensures Valid() && queue.Repr == old(queue.Repr)
      ensures View() == M.CancelJob(old(View()), id, now)
      ensures ok <==> S.Cancellable(old(View()).sched, id)
      ensures job == S.Lookup(View().sched, id)
    {
      hide GlobalScheduler.GlobalScheduler.Valid;
      job, ok := queue.Cancel(id, now);
      if ok && job.value.worker != "" {
        tracker.Release(job.value.worker, job.value.spec.need);
        sent := sent + [Kill(job.value.worker, id)];
      }
    }

    // ---------- reports ----------

    method ReleaseFor(job: JobRec)
      modifies tracker
      ensures tracker.View() == M.ReleasedIfPlaced(old(tracker.View()), job)
    {
      if job.worker != "" {
        tracker.Release(job.worker, job.spec.need);
      }
    }

    method JudgeNode(r: M.Result, now: int)
      modifies cb
      ensures cb.View() == M.Judged(old(cb.View()), r, now)
    {
      if r.success {
        cb.RecordSuccess(r.worker);
      } else if !M.IsUserError(r.error) {
        cb.RecordFailure(r.worker, r.jobId, now);
      }
    }

    method Bill(job: JobRec)
      modifies fairshare
      ensures fairshare.userUsage == M.Billed(old(fairshare.userUsage), job)
    {
      var dur := job.endTime - job.startTime;
      if dur > 0 {
        fairshare.RecordUsage(job.spec.user, dur as real / SECOND as real);
      }
    }

    /** The next retry, or the dead letter of an exhausted job. */
    method RetryOrBury(job: JobRec, r: M.Result, now: int)
      modifies this`timers, this`deadLetters
      ensures timers == if M.Retries(job, r) then old(timers) + [M.Timer(r.jobId, now + M.Backoff(job.retryCount + 1))]
                        else old(timers)
      ensures deadLetters == if !M.Retries(job, r) && M.GivesUp(job, r) then old(deadLetters)[r.jobId := job]
                             else old(deadLetters)
    {
      if !r.success && job.spec.groupId == "" && job.retryCount < job.spec.maxRetries {
        var next := job.retryCount + 1;
        timers := timers + [M.Timer(r.jobId, now + next * next * 10 * SECOND)];
        return;
      }
      if !r.success && job.retryCount >= job.spec.maxRetries && job.spec.maxRetries > 0 {
        deadLetters := deadLetters[r.jobId := job];
      }
    }

    /** All that a report settles for a tracked job, but its record. */
    method CloseAccount(job: JobRec, r: M.Result, now: int)
      modifies this`timers, this`deadLetters, tracker, cb, fairshare
      ensures View() == old(View()).(
                ledger := M.ReleasedIfPlaced(old(tracker.View()), job),
                breaker := M.Judged(old(cb.View()), r, now),
                usage := M.Billed(old(fairshare.userUsage), job),
                timers := if M.Retries(job, r)
                          then old(timers) + [M.Timer(r.jobId, now + M.Backoff(job.retryCount + 1))] else old(timers),
                deadLetters := if !M.Retries(job, r) && M.GivesUp(job, r)
                               then old(deadLetters)[r.jobId := job] else old(deadLetters))
    {
      ReleaseFor(job);
      JudgeNode(r, now);
      Bill(job);
      RetryOrBury(job, r, now);
    }

    /** ReportResult up to group completion. */
    method Settle(r: M.Result, now: int) returns (found: Option<JobRec>)
      requires Valid()
      modifies Footprint()
      ensures Valid() && queue.Repr == old(queue.Repr)
      ensures View() == M.Settle(old(View()), r, now)
      ensures found == S.Lookup(View().sched, r.jobId)
    {
      hide GlobalScheduler.GlobalScheduler.Valid, S.MarkCompleted, M.ReleasedIfPlaced, M.Judged, M.Billed, M.Retries,
            M.GivesUp;
      queue.MarkCompleted(r.jobId, r.success, r.output, r.error, now);
      found := queue.GetJob(r.jobId);
      if found == None {
        return;
      }
      CloseAccount(found.value, r, now);
    }

    /** ReportResult as written. */
    method ReportResult(r: M.Result, now: int)
      requires Valid()
      modifies Footprint()
      ensures Valid() && queue.Repr == old(queue.Repr)
      ensures View() == M.ReportAsWritten(old(View()), r, now)
    {
      hide GlobalScheduler.GlobalScheduler.Valid;
      var found := Settle(r, now);
      if found != None && found.value.spec.groupId != "" {
        HandleGroupCompletion(found.value.spec.groupId, r.jobId, r.success, now);
      }
    }

    // ---------- group completion ----------

    method CancelOthers(ids: seq<string>, spared: string, now: int)
      requires Valid()
      modifies Footprint()
      ensures Valid() && queue.Repr == old(queue.Repr)
      ensures View() == M.CancelSiblings(old(View()), ids, spared, now)
    {
      hide GlobalScheduler.GlobalScheduler.Valid;
      var i := 0;
      while i < |ids|
        invariant 0 <= i <= |ids|
        invariant Valid() && queue.Repr == old(queue.Repr)
        invariant M.CancelSiblings(View(), ids[i..], spared, now) == M.CancelSiblings(old(View()), ids, spared, now)
      {
        if ids[i] != spared {
          var _, _ := CancelJob(ids[i], now);
        }
        i := i + 1;
      }
    }

    method AllRanksDone(ids: seq<string>) returns (done: bool)
      requires Valid()
      ensures done <==> M.AllDone(View().sched, ids)
    {
      hide GlobalScheduler.GlobalScheduler.Valid;
      var i := 0;
      while i < |ids|
        invariant 0 <= i <= |ids|
        invariant M.AllDone(View().sched, ids[..i])
      {
        var job := queue.GetJob(ids[i]);
        if job != None && (job.value.state == Queued || job.value.state == Running) {
          assert ids[i] in ids;
          return false;
        }
        i := i + 1;
      }
      return true;
    }

    method HandleGroupCompletion(gid: string, jobId: string, success: bool, now: int)
      requires Valid()
      modifies Footprint()
      ensures Valid() && queue.Repr == old(queue.Repr)
      ensures View() == M.GroupReport(old(View()), gid, jobId, success, now)
    {
      hide GlobalScheduler.GlobalScheduler.Valid;
      var group := queue.GetGroup(gid);
      if group == None || group.value.state == GroupCompleted || group.value.state == GroupFailed {
        return;
      }
      if !success {
        CancelOthers(group.value.jobIds, jobId, now);
        queue.SetGroupState(gid, GroupFailed);
        return;
      }
      var done := AllRanksDone(group.value.jobIds);
      if done {
        queue.SetGroupState(gid, GroupCompleted);
      }
    }

    /** The /acknowledge_start handler. */
    method AcknowledgeStart(id: string) returns (exists_: bool)
      modifies this`pending
      ensures View() == M.Acknowledge(old(View()), id)
      ensures exists_ <==> id in old(pending)
    {
      exists_ := id in pending;
      if exists_ {
        pending := pending - {id};
      }
    }

    // ---------- matching ----------

    method CanDispatchResources(member: Member, need: Res) returns (fits: bool)
      ensures fits <==> Ledger.CanDispatch(tracker.View(), member, need)
    {
      if need.gpus > 0 {
        if member.total.gpus < need.gpus {
          return false;
        }
        if member.total.gpus - Get(tracker.gpusAllocated, member.name) < need.gpus {
          return false;
        }
      }
      if need.cpus > 0 {
        if member.total.cpus < need.cpus {
          return false;
        }
        if member.total.cpus - Get(tracker.cpusAllocated, member.name) < need.cpus {
          return false;
        }
      }
      if need.mem > 0 {
        if member.total.mem < need.mem {
          return false;
        }
        if member.total.mem - Get(tracker.memAllocated, member.name) < need.mem {
          return false;
        }
      }
      return true;
    }

    /** The first member, not used yet, that can take the job. */
    method FirstFit(used: set<string>, spec: JobSpec, now: int) returns (found: Option<Member>)
      modifies cb
      ensures var r := M.FirstFit(old(cb.View()), tracker.View(), cfg.matches, used, spec, members, now);
              cb.View() == r.breaker && found == r.found
    {
      ghost var all := M.FirstFit(cb.View(), tracker.View(), cfg.matches, used, spec, members, now);
      var i := 0;
      while i < |members|
        invariant 0 <= i <= |members|
        invariant M.FirstFit(cb.View(), tracker.View(), cfg.matches, used, spec, members[i..], now) == all
      {
        var member := members[i];
        i := i + 1;
        if member.name in used || !member.hasMeta {
          continue;
        }
        var blocked := cb.IsBlocked(member.name, now);
        if blocked {
          continue;
        }
        var fits := CanDispatchResources(member, spec.need);
        if !fits {
          continue;
        }
        if cfg.matches(spec.requirement, member) {
          return Some(member);
        }
      }
      found := None;
    }

    /** The queued jobs among the ids. */
    method QueuedRanks(ids: seq<string>) returns (ranks: seq<JobRec>)
      requires Valid()
      ensures ranks == M.QueuedAmong(View().sched, ids)
    {
      hide GlobalScheduler.GlobalScheduler.Valid;
      ranks := [];
      var i := 0;
      while i < |ids|
        invariant 0 <= i <= |ids|
        invariant ranks + M.QueuedAmong(View().sched, ids[i..]) == M.QueuedAmong(View().sched, ids)
      {
        var job := queue.GetJob(ids[i]);
        if job != None && job.value.state == Queued {
          ranks := ranks + [job.value];
        }
        i := i + 1;
      }
    }

    /** What was matched so far, before what the rest will match. */
    static function Joined(done: seq<Member>, rest: Option<seq<Member>>): Option<seq<Member>> {
      if rest == None then None else Some(done + rest.value)
    }

    static lemma JoinedSteps(done: seq<Member>, x: Member, rest: Option<seq<Member>>)
      ensures Joined([], rest) == rest
      ensures Joined(done, Some([])) == Some(done)
      ensures Joined(done, Joined([x], rest)) == Joined(done + [x], rest)
    {
      if rest != None {
        assert [] + rest.value == rest.value;
        assert done + ([x] + rest.value) == (done + [x]) + rest.value;
      }
      assert done + [] == done;
    }

    /** One distinct member per rank, or nothing. */
    method MatchRanks(ranks: seq<JobRec>, now: int) returns (nodes: Option<seq<Member>>)
      modifies cb
      ensures var r := M.MatchRanks(old(cb.View()), tracker.View(), cfg.matches, {}, ranks, members, now);
              cb.View() == r.breaker && nodes == r.found
    {
      ghost var all := M.MatchRanks(cb.View(), tracker.View(), cfg.matches, {}, ranks, members, now);
      var matched: seq<Member> := [];
      var used: set<string> := {};
      var i := 0;
      assert ranks[0..] == ranks;
      if all.found != None {
        assert [] + all.found.value == all.found.value;
      }
      while i < |ranks|
        invariant 0 <= i <= |ranks|
        invariant var rest := M.MatchRanks(cb.View(), tracker.View(), cfg.matches, used, ranks[i..], members, now);
                  all.breaker == rest.breaker && all.found == Joined(matched, rest.found)
      {
        var member := FirstFit(used, ranks[i].spec, now);
        if member == None {
          return None;
        }
        ghost var rest := M.MatchRanks(cb.View(), tracker.View(), cfg.matches, used + {member.value.name},
              ranks[i..][1..],
                                       members, now);
        JoinedSteps(matched, member.value, rest.found);
        assert ranks[i..][1..] == ranks[i + 1..];
        matched := matched + [member.value];
        used := used + {member.value.name};
        i := i + 1;
      }
      assert matched + [] == matched;
      nodes := Some(matched);
    }

    // ---------- dispatch ----------

    method VendorOf(node: string) returns (vendor: string)
      ensures vendor == M.VendorOf(members, node)
    {
      vendor := "";
      var i := 0;
      while i < |members|
        invariant 0 <= i <= |members|
        invariant M.VendorOf(members, node) == M.VendorOf(members[i..], node)
      {
        if members[i].name == node && members[i].hasMeta {
          return members[i].vendor;
        }
        i := i + 1;
      }
    }

    /** The numbers of the first n devices, joined by commas. */
    static method DeviceList(n: nat) returns (list: string)
      ensures list == M.DeviceList(n)
    {
      list := "";
      for i := 0 to n
        invariant list == M.DeviceList(i)
      {
        list := if i == 0 then M.Itoa(i) else list + "," + M.Itoa(i);
      }
    }

    /** The environment of a dispatched job. */
    method DeviceEnv(env: map<string, string>, gpus: int, node: string) returns (r: map<string, string>)
      ensures r == M.WithDevices(env, gpus, M.VendorOf(members, node))
    {
      r := env;
      if gpus > 0 {
        var gpuEnvVar := "CUDA_VISIBLE_DEVICES";
        var vendor := VendorOf(node);
        if vendor == "amd" {
          gpuEnvVar := "HIP_VISIBLE_DEVICES";
        }
        var devices := DeviceList(gpus);
        if vendor == "intel" {
          var val := "level_zero:" + devices;
          if "ONEAPI_DEVICE_SELECTOR" !in r {
            r := r["ONEAPI_DEVICE_SELECTOR" := val];
          }
          if "SYCL_DEVICE_FILTER" !in r {
            r := r["SYCL_DEVICE_FILTER" := val];
          }
        } else if vendor == "apple" {
          if "METAL_DEVICE_INDEX" !in r {
            r := r["METAL_DEVICE_INDEX" := devices];
          }
        } else if gpuEnvVar !in r {
          r := r[gpuEnvVar := devices];
        }
      }
    }

    method DispatchJob(spec: JobSpec, env: map<string, string>, node: string, now: int)
      requires Valid()
      modifies Footprint()
      ensures Valid() && queue.Repr == old(queue.Repr)
      ensures View() == M.Dispatch(old(View()), spec, env, node, now)
    {
      hide GlobalScheduler.GlobalScheduler.Valid;
      queue.MarkRunning(spec.id, node, now);
      pending := pending[spec.id := now];
      tracker.Allocate(node, spec.need);
      var envVars := DeviceEnv(env, spec.need.gpus, node);
      sent := sent + [Execute(node, spec.id, spec.command, spec.walltime, envVars)];
    }

    method DispatchRanks(ranks: seq<JobRec>, nodes: seq<Member>, addr: string, now: int)
      requires Valid() && |ranks| == |nodes|
      modifies Footprint()
      ensures Valid() && queue.Repr == old(queue.Repr)
      ensures View() == M.DispatchRanks(old(View()), ranks, nodes, addr, now)
    {
      hide GlobalScheduler.GlobalScheduler.Valid;
      var i := 0;
      while i < |ranks|
        invariant 0 <= i <= |ranks|
        invariant Valid() && queue.Repr == old(queue.Repr)
        invariant M.DispatchRanks(View(), ranks[i..], nodes[i..], addr, now)
               == M.DispatchRanks(old(View()), ranks, nodes, addr, now)
      {
        var spec := ranks[i].spec;
        var _ := queue.RemoveById(spec.id);
        DispatchJob(spec, spec.env["MASTER_ADDR" := addr], nodes[i].name, now);
        i := i + 1;
      }
    }

    method TryDispatchGroup(g: GroupRec, now: int)
      requires Valid() && g.numNodes >= 1
      modifies Footprint()
      ensures Valid() && queue.Repr == old(queue.Repr)
      ensures View() == M.TryGang(old(View()), g, cfg.matches, now)
    {
      hide GlobalScheduler.GlobalScheduler.Valid, M.QueuedAmong, M.MatchRanks, M.DispatchRanks, S.SetGroupState;
      var ranks := QueuedRanks(g.jobIds);
      if |ranks| != g.numNodes {
        return;
      }
      ghost var m := View();
      var nodes := MatchRanks(ranks, now);
      if nodes == None {
        return;
      }
      M.MatchRanksLength(m.breaker, m.ledger, cfg.matches, {}, ranks, members, now);
      DispatchRanks(ranks, nodes.value, nodes.value[0].addr, now);
      queue.SetGroupState(g.id, GroupRunning);
    }

    /** A gang that timed out: cancel every rank, fail the group. */
    method FailGang(g: GroupRec, now: int)
      requires Valid()
      modifies Footprint()
      ensures Valid() && queue.Repr == old(queue.Repr)
      ensures var s := M.CancelRanks(old(View()).sched, g.jobIds, now);
              View() == old(View()).(sched := S.SetGroupState(s, g.id, GroupFailed))
    {
      hide GlobalScheduler.GlobalScheduler.Valid;
      var i := 0;
      while i < |g.jobIds|
        invariant 0 <= i <= |g.jobIds|
        invariant Valid() && queue.Repr == old(queue.Repr)
        invariant View() == old(View()).(sched := queue.model)
        invariant M.CancelRanks(queue.model, g.jobIds[i..], now) == M.CancelRanks(old(View()).sched, g.jobIds, now)
      {
        var _, _ := queue.Cancel(g.jobIds[i], now);
        i := i + 1;
      }
      queue.SetGroupState(g.id, GroupFailed);
    }

    /** Phase 0: the pending groups, in the order the table yields them. */
    method DispatchGangs(now: int) returns (gs: seq<GroupRec>)
      requires Valid() && S.GroupsNamed(View().sched)
      requires forall gid | gid in View().sched.groups :: View().sched.groups[gid].numNodes >= 1
      modifies Footprint()
      ensures Valid() && queue.Repr == old(queue.Repr)
      ensures S.ListsPending(old(View()).sched, gs) && forall g | g in gs :: g.numNodes >= 1
      ensures View() == M.GangPhase(old(View()), gs, cfg.matches, now)
    {
      hide GlobalScheduler.GlobalScheduler.Valid, M.TryGang, M.CancelRanks, S.SetGroupState;
      gs := queue.PendingGroups();
      var i := 0;
      while i < |gs|
        invariant 0 <= i <= |gs|
        invariant Valid() && queue.Repr == old(queue.Repr)
        invariant forall g | g in gs[i..] :: g.numNodes >= 1
        invariant M.GangPhase(View(), gs[i..], cfg.matches, now) == M.GangPhase(old(View()), gs, cfg.matches, now)
      {
        if M.TimedOut(gs[i], now) {
          FailGang(gs[i], now);
        } else {
          TryDispatchGroup(gs[i], now);
        }
        i := i + 1;
      }
    }

    /** Phase 2: backfill one single job onto the first member that can take any. */
    method DispatchBackfill(now: int)
      requires Valid()
      modifies Footprint()
      ensures Valid() && queue.Repr == old(queue.Repr)
      ensures View() == M.FillPhase(old(View()), old(members), cfg.matches, now)
    {
      hide GlobalScheduler.GlobalScheduler.Valid;
      var i := 0;
      while i < |members|
        invariant 0 <= i <= |members|
        invariant Valid() && queue.Repr == old(queue.Repr) && members == old(members)
        invariant M.FillPhase(View(), members[i..], cfg.matches, now) == M.FillPhase(old(View()), members,
              cfg.matches, now)
      {
        var member := members[i];
        i := i + 1;
        if !member.hasMeta {
          continue;
        }
        var blocked := cb.IsBlocked(member.name, now);
        if blocked {
          continue;
        }
        var job := queue.Backfill(M.Fillable(tracker.View(), cfg.matches, member));
        if job != None {
          DispatchJob(job.value.spec, job.value.spec.env, member.name, now);
          return;
        }
      }
    }

    /** Phases 1 and 2. */
    method DispatchSingles(now: int)
      requires Valid()
      modifies Footprint()
      ensures Valid() && queue.Repr == old(queue.Repr)
      ensures View() == M.SinglePhase(old(View()), cfg.matches, now)
    {
      hide GlobalScheduler.GlobalScheduler.Valid;
      var top := queue.Peek();
      if top == None || top.value.spec.groupId != "" {
        return;
      }
      var selected := FirstFit({}, top.value.spec, now);
      if selected != None {
        var job := queue.Dequeue();
        if job != None {
          DispatchJob(job.value.spec, job.value.spec.env, selected.value.name, now);
        }
        return;
      }
      DispatchBackfill(now);
    }

    /** One tick of dispatchLoop; the order of the pending groups is reported. */
    method DispatchTick(now: int) returns (gs: seq<GroupRec>)
      requires Valid() && S.GroupsNamed(View().sched)
      requires forall gid | gid in View().sched.groups :: View().sched.groups[gid].numNodes >= 1
      modifies Footprint()
      ensures Valid() && queue.Repr == old(queue.Repr)
      ensures S.ListsPending(old(View()).sched, gs) && forall g | g in gs :: g.numNodes >= 1
      ensures View() == M.Tick(old(View()), gs, cfg.matches, now)
    {
      hide GlobalScheduler.GlobalScheduler.Valid;
      gs := DispatchGangs(now);
      DispatchSingles(now);
    }

    // ---------- enforcers ----------

    /** Kill one overrun job, whatever Cancel answers. */
    method KillOverrun(rec: JobRec, now: int)
      requires Valid()
      modifies Footprint()
      ensures Valid() && queue.Repr == old(queue.Repr)
      ensures View() == M.Kill1(old(View()), rec, now)
    {
      if rec.spec.walltime <= 0 {
        return;
      }
      hide GlobalScheduler.GlobalScheduler.Valid;
      if now > rec.startTime + rec.spec.walltime * SECOND {
        var _, _ := queue.Cancel(rec.spec.id, now);
        ReleaseFor(rec);
        sent := sent + [Kill(rec.worker, rec.spec.id)];
      }
    }

    /** One sweep of walltimeEnforcer. */
    method EnforceWalltime(now: int) returns (running: seq<JobRec>)
      requires Valid()
      modifies Footprint()
      ensures Valid() && queue.Repr == old(queue.Repr)
      ensures S.Lists(old(View()).sched, S.RunsAnywhere(), running)
      ensures View() == M.WalltimeSweep(old(View()), running, now)
    {
      hide GlobalScheduler.GlobalScheduler.Valid;
      running := queue.ListJobs(S.RunsAnywhere());
      var i := 0;
      while i < |running|
        invariant 0 <= i <= |running|
        invariant Valid() && queue.Repr == old(queue.Repr)
        invariant M.WalltimeSweep(View(), running[i..], now) == M.WalltimeSweep(old(View()), running, now)
      {
        KillOverrun(running[i], now);
        i := i + 1;
      }
    }

    /** A job that is not QUEUED is outside the heap. */
    lemma OutsideHeap(id: string)
      requires Valid() && Core(View()) && !S.InState(queue.model, id, Queued)
      ensures id in queue.jobs ==> queue.jobs[id].index == -1
    {
      assert id in queue.model.jobs ==> multiset(queue.model.queue)[queue.model.jobs[id].spec] == 0;
      queue.OutsideHeap(id);
    }

    /** The entries of the handshake list that are older than ten seconds. */
    method TimedOutHandshakes(now: int) returns (ids: seq<string>)
      ensures M.ListsExpired(View(), ids, now)
    {
      ids := [];
      var rest := pending.Keys;
      while rest != {}
        invariant rest <= pending.Keys
        invariant forall i, j | 0 <= i < j < |ids| :: ids[i] != ids[j]
        invariant forall id :: id in ids <==> id !in rest && M.Expired(View(), id, now)
        decreases rest
      {
        var id :| id in rest;
        rest := rest - {id};
        if now - pending[id] > 10 * SECOND {
          ids := ids + [id];
        }
      }
    }

    method RequeueUnacknowledged(id: string)
      requires Valid() && Core(View())
      modifies Footprint()
      ensures Valid() && queue.Repr == old(queue.Repr)
      ensures View() == M.Requeue1(old(View()), id)
    {
      hide GlobalScheduler.GlobalScheduler.Valid, Core;
      var job := queue.GetJob(id);
      if job == None || job.value.state != Running {
        return;
      }
      OutsideHeap(id);
      var requeued := queue.RequeueRunningJob(id);
      if requeued {
        ReleaseFor(job.value);
      }
    }

    /** One sweep of dispatchTimeoutEnforcer. */
    method EnforceHandshake(now: int) returns (expired: seq<string>)
      requires Valid() && Core(View())
      modifies Footprint()
      ensures Valid() && queue.Repr == old(queue.Repr)
      ensures M.ListsExpired(old(View()), expired, now)
      ensures View() == M.HandshakeSweep(old(View()), expired)
    {
      hide GlobalScheduler.GlobalScheduler.Valid, M.Requeue1, CoreOf;
      expired := TimedOutHandshakes(now);
      pending := pending - (set id | id in expired);
      ghost var swept := View();
      assert Core(swept);
      hide Core;
      var i := 0;
      while i < |expired|
        invariant 0 <= i <= |expired|
        invariant Valid() && queue.Repr == old(queue.Repr)
        invariant Core(View())
        invariant M.RequeueAll(View(), expired[i..]) == M.RequeueAll(swept, expired)
      {
        CoreSteps.Requeue1Core(View(), expired[i]);
        RequeueUnacknowledged(expired[i]);
        i := i + 1;
      }
    }

    /** A retry timer fires: the goroutine wakes up and requeues its job without
        looking.  The invariant of timers keeps that job out of the heap until then,
        and so every job still knows where the heap has it. */
    method FireRetry(i: nat)
      requires Valid() && i < |timers|
      modifies Footprint()
      ensures queue.Coherent() && queue.Repr == old(queue.Repr)
      ensures old(Core(View()) && !S.InState(View().sched, timers[i].jobId, Queued)) ==> Valid()
      ensures View() == M.RetryFires(old(View()), i)
    {
      hide GlobalScheduler.GlobalScheduler.Valid, GlobalScheduler.GlobalScheduler.Coherent, Core;
      var id := timers[i].jobId;
      if Core(View()) && !S.InState(View().sched, id, Queued) {
        OutsideHeap(id);
      }
      timers := timers[..i] + timers[i + 1..];
      var _ := queue.Requeue(id, true);
    }

    // ---------- membership ----------

    /** One job of a node that left. */
    method FailLost(node: string, rec: JobRec, now: int)
      requires Valid()
      modifies Footprint()
      ensures Valid() && queue.Repr == old(queue.Repr)
      ensures View() == M.Lose1(old(View()), node, rec, now)
    {
      hide GlobalScheduler.GlobalScheduler.Valid;
      tracker.Release(node, rec.spec.need);
      queue.MarkCompleted(rec.spec.id, false, "", "worker node lost", now);
      if rec.spec.groupId != "" {
        var group := queue.GetGroup(rec.spec.groupId);
        if group != None && group.value.state == GroupRunning {
          queue.SetGroupState(rec.spec.groupId, GroupFailed);
        }
      }
    }

    /** The gossip layer drops a member, and its jobs fail. */
    method OnLeave(name: string, now: int) returns (lost: seq<JobRec>)
      requires Valid()
      modifies Footprint()
      ensures Valid() && queue.Repr == old(queue.Repr)
      ensures S.Lists(old(View()).sched, S.RunsOn(name), lost)
      ensures View() == M.NodeLeaves(old(View()), name, lost, now)
    {
      hide GlobalScheduler.GlobalScheduler.Valid;
      members := M.Others(members, name);
      lost := queue.ListJobs(S.RunsOn(name));
      ghost var gone := View();
      var i := 0;
      while i < |lost|
        invariant 0 <= i <= |lost|
        invariant Valid() && queue.Repr == old(queue.Repr)
        invariant M.LoseAll(View(), name, lost[i..], now) == M.LoseAll(gone, name, lost, now)
      {
        FailLost(name, lost[i], now);
        i := i + 1;
      }
    }

    // ---------- the database ----------

    /** The writer takes one operation and saves the object it points to. */
    method WriteBack()
      requires Valid() && View().sched.writes != []
      modifies Footprint()
      ensures Valid() && queue.Repr == old(queue.Repr)
      ensures View() == M.WriteOne(old(View()))
    {
      hide GlobalScheduler.GlobalScheduler.Valid;
      var op := queue.TakeWrite();
      match op {
        case JobWrite(id) =>
          var job := queue.GetJob(id);
          if job != None {
            saved := saved.(jobs := saved.jobs[id := job.value]);
          }
        case GroupWrite(gid) =>
          var group := queue.GetGroup(gid);
          if group != None {
            saved := saved.(groups := saved.groups[gid := group.value]);
          }
      }
    }

    /** The first loop of the restore: queued jobs come back, running ones failed. */
    method RestoreJobs(recs: seq<JobRec>, now: int)
      requires Valid() && S.DistinctJobs(recs) && forall r | r in recs :: r.spec.id !in queue.jobs
      modifies this`saved, queue.Repr
      ensures Valid() && fresh(queue.Repr - old(queue.Repr))
      ensures View() == Restart.RestoreJobs(old(View()), recs, now)
    {
      hide GlobalScheduler.GlobalScheduler.Valid, S.Enqueue, S.Full;
      var i := 0;
      while i < |recs|
        invariant 0 <= i <= |recs|
        invariant Valid() && fresh(queue.Repr - old(queue.Repr))
        invariant forall k | i <= k < |recs| :: recs[k].spec.id !in queue.jobs
        invariant Restart.RestoreJobs(View(), recs[i..], now) == Restart.RestoreJobs(old(View()), recs, now)
      {
        var job := recs[i];
        match job.state {
          case Queued =>
            var _ := Enlist(job);
          case Running =>
            job := job.(state := Failed, error := "master restarted", endTime := now);
            saved := saved.(jobs := saved.jobs[job.spec.id := job]);
          case _ =>
        }
        i := i + 1;
      }
    }

    /** The second loop: groups in mid-flight are failed, every group registered. */
    method RestoreGroups(gs: seq<GroupRec>)
      requires Valid()
      modifies this`saved, queue.Repr
      ensures Valid() && queue.Repr == old(queue.Repr)
      ensures View() == Restart.RestoreGroups(old(View()), gs)
    {
      hide GlobalScheduler.GlobalScheduler.Valid;
      var i := 0;
      while i < |gs|
        invariant 0 <= i <= |gs|
        invariant Valid() && queue.Repr == old(queue.Repr)
        invariant Restart.RestoreGroups(View(), gs[i..]) == Restart.RestoreGroups(old(View()), gs)
      {
        var g := gs[i];
        if g.state == GroupPending || g.state == GroupRunning {
          g := g.(state := GroupFailed);
          saved := saved.(groups := saved.groups[g.id := g]);
        }
        queue.RegisterGroup(g);
        i := i + 1;
      }
    }
  }
}
