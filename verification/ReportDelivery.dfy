/** ReportResult as written and with a guard.  The code is safe for reports that
    find their job RUNNING; this module says exactly what happens otherwise. */
module ReportDelivery {
  import opened Types
  import opened HeapOrder
  import opened Scheduling
  import opened Ledger
  import opened MasterSteps
  import opened Placement
  import opened CoreSteps
  import opened Continuity
  import opened Groups
  import opened Events
  import opened Runs

  // ---------- the code as written ----------

  /** The hypothesis under which the code needs no guard: a report finds its job
      RUNNING, so it arrives at most once per dispatch. */
  ghost predicate Timely(m: Master, e: Event) {
    e.Reported? && e.result.jobId in m.sched.jobs ==> InState(m.sched, e.result.jobId, Running)
  }

  ghost function ApplyAsWritten(cfg: Config, m: Master, e: Event): Master
    requires Possible(m, e)
  {
    if e.Reported? then ReportAsWritten(m, e.result, e.now) else Apply(cfg, m, e)
  }

  ghost predicate StepsAsWritten(cfg: Config, r: Run, e: Event, r': Run) {
    Possible(r.m, e) && Timely(r.m, e) && r' == Moved(r, e, ApplyAsWritten(cfg, r.m, e))
  }

  ghost predicate IsRunAsWritten(cfg: Config, es: seq<Event>, rs: seq<Run>) {
    && |rs| == |es| + 1
    && Initial(rs[0])
    && (forall i | 0 <= i < |es| :: StepsAsWritten(cfg, rs[i], es[i], rs[i + 1]))
  }

  lemma TimelyApplies(cfg: Config, m: Master, e: Event)
    requires Possible(m, e) && Timely(m, e)
    ensures ApplyAsWritten(cfg, m, e) == Apply(cfg, m, e)
  {
  }

  lemma TimelyIsGuarded(cfg: Config, r: Run, e: Event, r': Run)
    requires Inv(r) && StepsAsWritten(cfg, r, e, r')
    ensures Steps(cfg, r, e, r')
  {
    hide Inv, Possible, Timely, Apply, ApplyAsWritten, Moved;
    TimelyApplies(cfg, r.m, e);
  }

  lemma TimelyStep(cfg: Config, es: seq<Event>, rs: seq<Run>, i: nat)
    requires IsRunAsWritten(cfg, es, rs) && i < |es| && Inv(rs[i])
    ensures Steps(cfg, rs[i], es[i], rs[i + 1])
  {
    assert StepsAsWritten(cfg, rs[i], es[i], rs[i + 1]);
    TimelyIsGuarded(cfg, rs[i], es[i], rs[i + 1]);
  }

  lemma TimelyStepInv(cfg: Config, es: seq<Event>, rs: seq<Run>, i: nat)
    requires IsRunAsWritten(cfg, es, rs) && 0 < i < |rs| && Inv(rs[i - 1])
    ensures Inv(rs[i])
  {
    hide Inv, Steps, StepsAsWritten, Initial, Effect, Moved;
    TimelyStep(cfg, es, rs, i - 1);
    StepInv(cfg, rs[i - 1], es[i - 1], rs[i]);
  }

  lemma {:induction false} TimelyReachable(cfg: Config, es: seq<Event>, rs: seq<Run>, i: nat)
    requires IsRunAsWritten(cfg, es, rs) && i < |rs|
    ensures Inv(rs[i])
  {
    hide Inv, Initial, StepsAsWritten;
    if i == 0 {
      InitialInv(rs[0]);
    } else {
      TimelyReachable(cfg, es, rs, i - 1);
      TimelyStepInv(cfg, es, rs, i);
    }
  }

  /** Every run of the code as written, under timely reports, is a run of the
      guarded master; so everything proved of those holds of it. */
  lemma AsWrittenRuns(cfg: Config, es: seq<Event>, rs: seq<Run>)
    requires IsRunAsWritten(cfg, es, rs)
    ensures IsRun(cfg, es, rs)
  {
    forall i | 0 <= i < |es| ensures Steps(cfg, rs[i], es[i], rs[i + 1]) {
      TimelyReachable(cfg, es, rs, i);
      TimelyStep(cfg, es, rs, i);
    }
  }

  // ---------- reports at other times ----------

  /** Releasing again changes nothing: in each dimension the job asked for nothing
      or the node's entry is already zero. */
  predicate NothingToRelease(l: Ledger, job: JobRec) {
    var held := Held(l, job.worker);
    && (job.spec.need.gpus == 0 || held.gpus == 0)
    && (job.spec.need.cpus == 0 || held.cpus == 0)
    && (job.spec.need.mem == 0 || held.mem == 0)
  }

  lemma ReleaseIdles(l: Ledger, job: JobRec)
    requires job.spec.need.NonNegative() && Held(l, job.worker).NonNegative()
    ensures NothingToRelease(l, job)
        <==> Held(Released(l, job.worker, job.spec.need), job.worker) == Held(l, job.worker)
  {
  }

  /** When the unguarded report leaves heap, placement and ledger right. */
  predicate PlacementSpared(m: Master, id: string) {
    || id !in m.sched.jobs
    || m.sched.jobs[id].state == Running
    || (Finished(m.sched.jobs[id]) && (m.sched.jobs[id].worker == "" || NothingToRelease(m.ledger, m.sched.jobs[id])))
  }

  /** What the unguarded report makes of the job's record. */
  function Resettled(job: JobRec, r: Result, now: int): JobRec {
    if job.state == Cancelled then job
    else job.(state := if r.success then Completed else Failed, output := r.output, error := r.error, endTime := now)
  }

  lemma SettleEffect(m: Master, r: Result, now: int)
    requires Keyed(m.sched.jobs) && r.jobId in m.sched.jobs
    ensures Settle(m, r, now).sched.jobs == m.sched.jobs[r.jobId := Resettled(m.sched.jobs[r.jobId], r, now)]
    ensures Settle(m, r, now).sched.queue == m.sched.queue && Settle(m, r, now).members == m.members
    ensures Settle(m, r, now).ledger == ReleasedIfPlaced(m.ledger, m.sched.jobs[r.jobId])
  {
  }

  /** A settled job is settled again; only the ledger can go wrong. */
  lemma ResettleFinished(m: Master, r: Result, now: int)
    requires Core(m) && r.jobId in m.sched.jobs && Finished(m.sched.jobs[r.jobId])
    ensures Core(Settle(m, r, now)) <==> PlacementSpared(m, r.jobId)
  {
    var job := m.sched.jobs[r.jobId];
    var rec := Resettled(job, r, now);
    SettleEffect(m, r, now);
    LoadNonNegative(m.sched.jobs, job.worker);
    assert Held(m.ledger, job.worker) == Load(m.sched.jobs, job.worker);
    ReleaseIdles(m.ledger, job);
    StaysUnplaced(m.ledger, job, rec);
    if PlacementSpared(m, r.jobId) {
      SameHoldings(m, r, now);
    } else {
      LoadFollows(m.sched.jobs, m.ledger, r.jobId, rec, m.ledger);
      assert Held(Settle(m, r, now).ledger, job.worker) != Held(m.ledger, job.worker);
    }
  }

  lemma SameLedger(l: Ledger, l': Ledger, old_: JobRec, rec: JobRec)
    requires old_.state != Running && rec.state != Running
    requires forall node :: Held(l', node) == Held(l, node)
    ensures LedgerFollows(l, l', old_, rec)
  {
    StaysUnplaced(l, old_, rec);
  }

  lemma HarmlessRelease(l: Ledger, job: JobRec, node: string)
    requires job.spec.need.NonNegative() && Held(l, job.worker).NonNegative()
    requires job.worker == "" || NothingToRelease(l, job)
    ensures Held(ReleasedIfPlaced(l, job), node) == Held(l, node)
  {
    ReleaseIdles(l, job);
    ReleaseSubtracts(l, job.worker, job.spec.need);
  }

  /** A finished job may get another finished record. */
  lemma FinishedFollows(jobs: Jobs, queue: seq<JobSpec>, l: Ledger, members: seq<Member>, id: string, rec: JobRec,
        l': Ledger)
    requires CoreOf(jobs, queue, l, members) && id in jobs && Finished(jobs[id])
    requires Finished(rec) && rec.spec == jobs[id].spec
    requires forall node :: Held(l', node) == Held(l, node)
    ensures CoreOf(jobs[id := rec], queue, l', members)
  {
    SameLedger(l, l', jobs[id], rec);
    assert multiset(queue) == multiset(queue) - multiset{} + multiset{};
    CoreFollows(jobs, queue, l, members, id, rec, queue, l');
  }

  lemma SameHoldings(m: Master, r: Result, now: int)
    requires Core(m) && r.jobId in m.sched.jobs && Finished(m.sched.jobs[r.jobId]) && PlacementSpared(m, r.jobId)
    ensures Core(Settle(m, r, now))
  {
    var job := m.sched.jobs[r.jobId];
    var l' := ReleasedIfPlaced(m.ledger, job);
    SettleEffect(m, r, now);
    LoadNonNegative(m.sched.jobs, job.worker);
    assert Held(m.ledger, job.worker) == Load(m.sched.jobs, job.worker);
    forall node ensures Held(l', node) == Held(m.ledger, node) {
      HarmlessRelease(m.ledger, job, node);
    }
    FinishedFollows(m.sched.jobs, m.sched.queue, m.ledger, m.members, r.jobId, Resettled(job, r, now), l');
  }

  /** A report for a job that is queued again takes it out of QUEUED but not out
      of the heap. */
  lemma ResettleQueued(m: Master, r: Result, now: int)
    requires Core(m) && InState(m.sched, r.jobId, Queued)
    ensures !Core(Settle(m, r, now))
  {
    SettleEffect(m, r, now);
    var spec := m.sched.jobs[r.jobId].spec;
    assert multiset(m.sched.queue)[spec] == 1;
    var jobs' := Settle(m, r, now).sched.jobs;
    assert jobs'[r.jobId].spec == spec && jobs'[r.jobId].state != Queued;
  }

  lemma UnguardedPlacement(m: Master, r: Result, now: int)
    requires Core(m)
    ensures Core(Settle(m, r, now)) <==> PlacementSpared(m, r.jobId)
  {
    if r.jobId in m.sched.jobs {
      if m.sched.jobs[r.jobId].state == Queued {
        ResettleQueued(m, r, now);
      } else if m.sched.jobs[r.jobId].state == Running {
        SettleCore(m, r, now);
      } else {
        ResettleFinished(m, r, now);
      }
    }
  }

  // ---------- retry timers ----------

  predicate NoTimer(m: Master, id: string) {
    forall t | t in m.timers :: t.jobId != id
  }

  /** When the unguarded report leaves the retry timers right: it neither changes a
      job that waits for its retry nor schedules a retry for a cancelled one. */
  predicate TimersSpared(m: Master, r: Result) {
    || r.jobId !in m.sched.jobs
    || m.sched.jobs[r.jobId].state == Running
    || (NoTimer(m, r.jobId) && (m.sched.jobs[r.jobId].state == Cancelled ==> !Retries(m.sched.jobs[r.jobId], r)))
  }

  lemma SettleTimers(m: Master, r: Result, now: int)
    requires Sound(m.sched) && r.jobId in m.sched.jobs
    ensures var job := m.sched.jobs[r.jobId];
            && Settle(m, r, now).timers
               == (if Retries(job, r) then m.timers + [Timer(r.jobId, now + Backoff(job.retryCount + 1))] else m.timers)
            && Settle(m, r, now).sched.jobs == m.sched.jobs[r.jobId := Resettled(job, r, now)]
            && Settle(m, r, now).sched.groups == m.sched.groups
  {
  }

  /** A timer of another job does not notice. */
  lemma OtherTimers(m: Master, r: Result, now: int)
    requires Sound(m.sched) && r.jobId in m.sched.jobs && TimersOk(m)
    ensures forall t | t in m.timers && t.jobId != r.jobId :: TimerOk(Settle(m, r, now).sched, t)
  {
    SettleTimers(m, r, now);
    forall t | t in m.timers && t.jobId != r.jobId ensures TimerOk(Settle(m, r, now).sched, t) {
      assert TimerOk(m.sched, t);
    }
  }

  lemma TimersStay(m: Master, r: Result, now: int)
    requires Sound(m.sched) && r.jobId in m.sched.jobs && TimersOk(m) && NoTimer(m, r.jobId)
    requires m.sched.jobs[r.jobId].state == Cancelled ==> !Retries(m.sched.jobs[r.jobId], r)
    ensures TimersOk(Settle(m, r, now))
  {
    var m' := Settle(m, r, now);
    SettleTimers(m, r, now);
    OtherTimers(m, r, now);
    forall t | t in m'.timers ensures TimerOk(m'.sched, t) {
      if t.jobId == r.jobId {
        assert Retries(m.sched.jobs[r.jobId], r);
      }
    }
  }

  /** A job that waits for its retry is FAILED with retries left: a success takes
      the state away from its timer, a failure starts a second timer. */
  lemma WaitingJobDisturbed(m: Master, r: Result, now: int, t: Timer)
    requires Sound(m.sched) && r.jobId in m.sched.jobs && TimersOk(m) && t in m.timers && t.jobId == r.jobId
    ensures !TimersOk(Settle(m, r, now))
  {
    var m' := Settle(m, r, now);
    SettleTimers(m, r, now);
    assert TimerOk(m.sched, t);
    var i :| 0 <= i < |m.timers| && m.timers[i] == t;
    assert m'.timers[i] == t;
    if r.success {
      assert !TimerOk(m'.sched, t) && t in m'.timers;
    } else {
      assert m'.timers[|m.timers|].jobId == m'.timers[i].jobId;
    }
  }

  lemma CancelledJobRevived(m: Master, r: Result, now: int)
    requires Sound(m.sched) && InState(m.sched, r.jobId, Cancelled) && Retries(m.sched.jobs[r.jobId], r)
    ensures !TimersOk(Settle(m, r, now))
  {
    var m' := Settle(m, r, now);
    SettleTimers(m, r, now);
    assert m'.timers[|m.timers|] in m'.timers && !TimerOk(m'.sched, m'.timers[|m.timers|]);
  }

  lemma UnguardedTimers(m: Master, r: Result, now: int)
    requires Sound(m.sched) && TimersOk(m)
    ensures TimersOk(Settle(m, r, now)) <==> TimersSpared(m, r)
  {
    if r.jobId in m.sched.jobs {
      var job := m.sched.jobs[r.jobId];
      if !NoTimer(m, r.jobId) {
        var t :| t in m.timers && t.jobId == r.jobId;
        assert TimerOk(m.sched, t);
        WaitingJobDisturbed(m, r, now, t);
      } else if job.state == Cancelled && Retries(job, r) {
        CancelledJobRevived(m, r, now);
      } else {
        TimersStay(m, r, now);
      }
    }
  }

  // ---------- the whole invariant ----------

  /** When the unguarded report is harmless: the job is unknown or RUNNING; or it is
      finished, nothing of its demand is held on its node any more, it does not wait
      for a retry, and it is not a cancelled one that would be retried. */
  predicate Harmless(m: Master, r: Result) {
    || r.jobId !in m.sched.jobs
    || m.sched.jobs[r.jobId].state == Running
    || (var job := m.sched.jobs[r.jobId];
        && Finished(job)
        && (job.worker == "" || NothingToRelease(m.ledger, job))
        && NoTimer(m, r.jobId)
        && (job.state == Cancelled ==> !Retries(job, r)))
  }

  /** The code as written keeps heap, placement, ledger and retry timers exactly when
      the report is harmless. */
  lemma UnguardedReport(m: Master, r: Result, now: int)
    requires Core(m) && Sound(m.sched) && TimersOk(m)
    ensures Core(Settle(m, r, now)) && TimersOk(Settle(m, r, now)) <==> Harmless(m, r)
  {
    UnguardedPlacement(m, r, now);
    UnguardedTimers(m, r, now);
  }

  lemma SingleCompletesNothing(m: Master, r: Result, now: int)
    requires Sound(m.sched) && r.jobId in m.sched.jobs && m.sched.jobs[r.jobId].spec.groupId == ""
    ensures ReportAsWritten(m, r, now) == Settle(m, r, now)
  {
    SettleTimers(m, r, now);
  }

  lemma UnknownReport(m: Master, r: Result, now: int)
    requires r.jobId !in m.sched.jobs
    ensures ReportAsWritten(m, r, now) == m
  {
  }

  /** For a single job that is the whole report and the whole invariant. */
  lemma UnguardedSingleReport(m: Master, r: Result, now: int)
    requires Static(m) && TimersOk(m)
    requires r.jobId in m.sched.jobs ==> m.sched.jobs[r.jobId].spec.groupId == ""
    ensures Static(ReportAsWritten(m, r, now)) && TimersOk(ReportAsWritten(m, r, now)) <==> Harmless(m, r)
  {
    hide Core, TimersOk, Harmless, ReportAsWritten, Settle;
    UnguardedReport(m, r, now);
    if r.jobId in m.sched.jobs {
      SingleCompletesNothing(m, r, now);
      SettleTimers(m, r, now);
      ResettledShape(m.sched, Settle(m, r, now).sched, r.jobId, Resettled(m.sched.jobs[r.jobId], r, now));
    } else {
      UnknownReport(m, r, now);
      SettledUnknown(m, r, now);
    }
  }

  lemma SettledUnknown(m: Master, r: Result, now: int)
    requires r.jobId !in m.sched.jobs
    ensures Settle(m, r, now) == m
  {
  }

  lemma ResettledShape(s: Sched, s': Sched, id: string, rec: JobRec)
    requires Shape(s) && RanksOk(s) && id in s.jobs && rec.spec == s.jobs[id].spec && rec.spec.groupId == ""
    requires s'.jobs == s.jobs[id := rec] && s'.groups == s.groups
    ensures Shape(s') && RanksOk(s')
  {
    RetryShape(s, s', id, rec);
  }

  // ---------- reports about finished ranks ----------

  /** Group and rank states stay consistent unless a failure is reported for a rank
      that completed in a group that completed. */
  predicate RanksSpared(job: JobRec, g: GroupRec, r: Result) {
    job.state == Completed && g.state == GroupCompleted ==> r.success
  }

  lemma ResettledRank(m: Master, r: Result, now: int)
    requires Shape(m.sched) && RanksOk(m.sched) && r.jobId in m.sched.jobs && Finished(m.sched.jobs[r.jobId])
    requires m.sched.jobs[r.jobId].spec.groupId in m.sched.groups
    ensures var job := m.sched.jobs[r.jobId];
            var s' := Settle(m, r, now).sched;
            && Shape(s') && OthersOk(s', job.spec.groupId) && s'.groups == m.sched.groups
            && (RankOk(Resettled(job, r, now), m.sched.groups) ==> RanksOk(s'))
            && r.jobId in s'.jobs && s'.jobs[r.jobId] == Resettled(job, r, now)
  {
    hide Settle;
    SettleTimers(m, r, now);
    ShapeBySpecs(m.sched, Settle(m, r, now).sched);
  }

  lemma ShapeBySpecs(s: Sched, s': Sched)
    requires Shape(s) && s'.groups == s.groups && s'.jobs.Keys == s.jobs.Keys
    requires forall id | id in s.jobs :: s'.jobs[id].spec == s.jobs[id].spec
    ensures Shape(s')
  {
    forall gid | gid in s'.groups ensures RanksOf(s'.jobs, s'.groups[gid]) {
      assert RanksOf(s.jobs, s.groups[gid]);
    }
    forall a, b | a in s'.jobs && b in s'.jobs ensures Alike(s'.jobs[a].spec, s'.jobs[b].spec) {
      assert Alike(s.jobs[a].spec, s.jobs[b].spec);
    }
  }

  /** What an unguarded report about a finished rank does to groups and ranks. */
  lemma UnguardedRankReport(m: Master, r: Result, now: int)
    requires Static(m) && r.jobId in m.sched.jobs && Finished(m.sched.jobs[r.jobId])
    requires m.sched.jobs[r.jobId].spec.groupId != "" && m.sched.jobs[r.jobId].spec.groupId in m.sched.groups
    ensures RanksOk(ReportAsWritten(m, r, now).sched)
        <==> RanksSpared(m.sched.jobs[r.jobId], m.sched.groups[m.sched.jobs[r.jobId].spec.groupId], r)
  {
    var job := m.sched.jobs[r.jobId];
    var gid := job.spec.groupId;
    var g := m.sched.groups[gid];
    var settled := Settle(m, r, now);
    assert RankOk(job, m.sched.groups);
    ResettledRank(m, r, now);
    assert ReportAsWritten(m, r, now) == GroupReport(settled, gid, r.jobId, r.success, now);
    hide Settle, Shape, ReportAsWritten, Core;
    if g.state == GroupPending {
      PendingTolerates(settled, gid, r.jobId, r.success, now);
    } else if RanksSpared(job, g, r) {
      GroupReportOk(settled, gid, r.jobId, r.success, now);
    } else {
      assert !RankOk(settled.sched.jobs[r.jobId], settled.sched.groups);
    }
  }

  // ---------- a concrete double release ----------

  function OneGpuJob(id: string): JobSpec {
    JobSpec(id, "", "", 0, 10, "anonymous", 0, Res(1, 0, 0), map[], 0, "")
  }

  /** A two-GPU node: job a has completed there, job b still runs. */
  function TwoJobs(): Master {
    var a := NewJob(OneGpuJob("a")).(state := Completed, worker := "n");
    var b := NewJob(OneGpuJob("b")).(state := Running, worker := "n");
    var node := Member("n", "10.0.0.1", true, Res(2, 0, 0), "");
    Fresh(0).(sched := NewSched(0).(jobs := map["a" := a, "b" := b]),
              ledger := EMPTY.(gpus := map["n" := 1]),
              members := [node])
  }

  lemma TwoJobsLoad(node: string)
    ensures Load(TwoJobs().sched.jobs, node) == if node == "n" then Res(1, 0, 0) else NOTHING
  {
    var jobs := TwoJobs().sched.jobs;
    LoadSplits(jobs, "b", node);
    assert "a" != "b";
    NoJobsNoLoad(jobs - {"b"}, node);
  }

  lemma TwoJobsCore()
    ensures Core(TwoJobs())
  {
    var m := TwoJobs();
    assert "a" != "b";
    forall node ensures Held(m.ledger, node) == Load(m.sched.jobs, node) {
      TwoJobsLoad(node);
    }
    assert Named(m.members, "n") by {
      assert m.members[0] in m.members;
    }
  }

  /** A repeated report about a gives away b's GPU: the node counts as empty and
      admits a job asking for both GPUs. */
  lemma DuplicateReportOvercommits(now: int)
    ensures var m := TwoJobs();
            var m' := ReportAsWritten(m, Result("a", true, "", "", "n"), now);
            && Core(m) && !Core(m')
            && !CanDispatch(m.ledger, m.members[0], Res(2, 0, 0))
            && CanDispatch(m'.ledger, m'.members[0], Res(2, 0, 0))
            && InState(m'.sched, "b", Running)
  {
    var m := TwoJobs();
    var r := Result("a", true, "", "", "n");
    assert "a" != "b";
    TwoJobsCore();
    UnguardedPlacement(m, r, now);
    SettleEffect(m, r, now);
  }

  // ---------- a concrete second retry ----------

  /** A job that may be retried thrice, in the given state, last placed on node n;
      nothing is held anywhere. */
  function OneJob(st: JobState, timers: seq<Timer>): Master {
    var a := NewJob(OneGpuJob("a").(maxRetries := 3)).(state := st, worker := "n");
    Fresh(0).(sched := NewSched(0).(jobs := map["a" := a]),
              timers := timers, members := [Member("n", "10.0.0.1", true, Res(2, 0, 0), "")])
  }

  lemma OneJobCore(st: JobState, timers: seq<Timer>)
    requires st == Failed || st == Cancelled
    ensures Core(OneJob(st, timers)) && Sound(OneJob(st, timers).sched)
  {
    var m := OneJob(st, timers);
    forall node ensures Held(m.ledger, node) == Load(m.sched.jobs, node) {
      NoJobsNoLoad(m.sched.jobs, node);
    }
  }

  /** The failure a worker reports for job a. */
  function FailureOfA(error: string): Result {
    Result("a", false, "", error, "n")
  }

  lemma FailureTwice(due: int, now: int)
    ensures var m := OneJob(Failed, [Timer("a", due)]);
            && PlacementSpared(m, "a")
            && ReportAsWritten(m, FailureOfA("lost"), now).timers == [Timer("a", due), Timer("a", now + Backoff(1))]
            && InState(ReportAsWritten(m, FailureOfA("lost"), now).sched, "a", Failed)
            && ReportAsWritten(m, FailureOfA("lost"), now).sched.queue == []
  {
  }

  /** When both timers have fired the heap holds the job twice. */
  lemma BothFire(m: Master, id: string, due: int, later: int)
    requires m.timers == [Timer(id, due), Timer(id, later)] && m.sched.queue == [] && id in m.sched.jobs
    requires m.sched.jobs[id].spec.id == id
    ensures |RetryFires(m, 0).timers| == 1
    ensures multiset(RetryFires(RetryFires(m, 0), 0).sched.queue)[m.sched.jobs[id].spec] == 2
  {
    var spec := m.sched.jobs[id].spec;
    var m1 := RetryFires(m, 0);
    assert m1.timers == [Timer(id, later)];
    assert [] + [spec] == [spec];
    assert m1.sched.queue == [spec] && m1.sched.jobs[id].spec == spec;
    UpPermutes([spec] + [spec], 1);
    assert multiset([spec] + [spec])[spec] == 2;
  }

  /** A repeated failure report about a job that waits for its retry schedules a
      second one, although heap, placement and ledger are still right; when both
      have fired the heap holds the job twice. */
  lemma DuplicateFailureRetriesTwice(due: int, now: int)
    ensures var m := OneJob(Failed, [Timer("a", due)]);
            var m1 := ReportAsWritten(m, FailureOfA("lost"), now);
            && Core(m) && TimersOk(m) && PlacementSpared(m, "a") && !Harmless(m, FailureOfA("lost"))
            && Core(m1) && |m1.timers| == 2 && |RetryFires(m1, 0).timers| == 1
            && !Core(RetryFires(RetryFires(m1, 0), 0))
  {
    var m := OneJob(Failed, [Timer("a", due)]);
    var m1 := ReportAsWritten(m, FailureOfA("lost"), now);
    OneJobCore(Failed, [Timer("a", due)]);
    assert Timer("a", due) in m.timers;
    FailureTwice(due, now);
    UnguardedPlacement(m, FailureOfA("lost"), now);
    BothFire(m1, "a", due, now + Backoff(1));
    HeldTwice(RetryFires(RetryFires(m1, 0), 0), m1.sched.jobs["a"].spec);
  }

  lemma HeldTwice(m: Master, spec: JobSpec)
    requires multiset(m.sched.queue)[spec] == 2
    ensures !Core(m)
  {
  }

  lemma TimerQueues(m: Master, t: Timer)
    requires m.timers == [t] && t.jobId in m.sched.jobs && m.sched.jobs[t.jobId].spec.id == t.jobId
    ensures InState(RetryFires(m, 0).sched, t.jobId, Queued)
  {
  }

  /** A failure reported for a cancelled job with retries left changes nothing but
      schedules the retry, and when that is due the cancelled job is queued again. */
  lemma CancelledJobQueuedAgain(m: Master, r: Result, now: int)
    requires Sound(m.sched) && m.timers == [] && InState(m.sched, r.jobId, Cancelled)
    requires Retries(m.sched.jobs[r.jobId], r)
    ensures var m1 := ReportAsWritten(m, r, now);
            && m1.sched == m.sched && |m1.timers| == 1
            && InState(RetryFires(m1, 0).sched, r.jobId, Queued)
  {
    var t := Timer(r.jobId, now + Backoff(m.sched.jobs[r.jobId].retryCount + 1));
    assert ReportAsWritten(m, r, now).timers == [t];
    TimerQueues(ReportAsWritten(m, r, now), t);
  }

  lemma CancelledOne()
    ensures var m := OneJob(Cancelled, []);
            && Core(m) && Sound(m.sched) && TimersOk(m) && m.timers == [] && PlacementSpared(m, "a")
            && !Harmless(m, FailureOfA("cancelled"))
            && InState(m.sched, "a", Cancelled) && Retries(m.sched.jobs["a"], FailureOfA("cancelled"))
  {
    OneJobCore(Cancelled, []);
    hide Core;
  }

  /** The report by which a worker confirms a cancellation is such a failure. */
  lemma CancelledJobRunsAgain(now: int)
    ensures var m := OneJob(Cancelled, []);
            var m1 := ReportAsWritten(m, FailureOfA("cancelled"), now);
            && Core(m) && TimersOk(m) && PlacementSpared(m, "a") && !Harmless(m, FailureOfA("cancelled"))
            && InState(m.sched, "a", Cancelled) && |m1.timers| == 1
            && InState(RetryFires(m1, 0).sched, "a", Queued)
  {
    CancelledOne();
    hide Core, Sound, TimersOk, PlacementSpared, Harmless, Retries, ReportAsWritten, RetryFires, OneJob;
    CancelledJobQueuedAgain(OneJob(Cancelled, []), FailureOfA("cancelled"), now);
  }
}
