/** The reports that the code does not survive do arrive: runs from an empty database
    whose last state meets the premises, each a few events long. */
module LateReports {
  import opened Types
  import opened HeapOrder
  import opened Scheduling
  import opened Ledger
  import opened MasterSteps
  import opened Placement
  import opened Continuity
  import opened GangScheduling
  import opened Events
  import opened Runs
  import opened ReportDelivery
  import CircuitBreaker
  import IdleCluster

  // ---------- running one more job ----------

  /** One member, nothing waits, nothing ever failed or was stored. */
  predicate Calm(m: Master, x: Member) {
    && m.members == [x] && x.name != "" && x.hasMeta
    && m.sched == m.sched.(maxQueueSize := 0, queue := [], groups := map[])
    && m.breaker == CircuitBreaker.CLOSED && m.timers == [] && m.deadLetters == map[]
    && m.saved == Image(map[], map[])
  }

  /** The member can take the job next to what it runs already. */
  predicate HasRoom(cfg: Config, m: Master, req: JobRequest, x: Member) {
    && req.need.NonNegative() && cfg.matches(req.requirement, x)
    && CanDispatch(m.ledger, x, req.need)
  }

  function Waits(m: Master, cfg: Config, id: string, req: JobRequest, now: int): Master {
    var spec := SingleSpec(m, cfg, id, req, now);
    m.(sched := Put(m.sched, NewJob(spec)).(queue := [spec]))
  }

  lemma SubmittedWaits(m: Master, cfg: Config, id: string, req: JobRequest, now: int, x: Member)
    requires Calm(m, x)
    ensures SubmitJob(m, cfg, id, req, now) == Waits(m, cfg, id, req, now)
  {
    var spec := SingleSpec(m, cfg, id, req, now);
    assert [] + [spec] == [spec];
  }

  lemma PoppedOne(spec: JobSpec)
    ensures Popped([spec]) == []
  {
  }

  function StartedOn(m: Master, cfg: Config, id: string, req: JobRequest, now: int, x: Member): Master {
    var spec := SingleSpec(m, cfg, id, req, now);
    Dispatch(Waits(m, cfg, id, req, now).(sched := Waits(m, cfg, id, req, now).sched.(queue := [])),
             spec, spec.env, x.name, now)
  }

  lemma FirstFitOne(l: Ledger, matches: Matcher, spec: JobSpec, x: Member, now: int)
    requires x.hasMeta && CanDispatch(l, x, spec.need) && matches(spec.requirement, x)
    ensures FirstFit(CircuitBreaker.CLOSED, l, matches, {}, spec, [x], now) == Search(CircuitBreaker.CLOSED, Some(x))
  {
  }

  lemma TickStarts(m: Master, cfg: Config, id: string, req: JobRequest, now: int, x: Member)
    requires Calm(m, x) && HasRoom(cfg, m, req, x)
    ensures Tick(Waits(m, cfg, id, req, now), [], cfg.matches, now) == StartedOn(m, cfg, id, req, now, x)
  {
    var spec := SingleSpec(m, cfg, id, req, now);
    PoppedOne(spec);
    FirstFitOne(m.ledger, cfg.matches, spec, x, now);
    hide FirstFit, CanDispatch, Popped;
    assert GangPhase(Waits(m, cfg, id, req, now), [], cfg.matches, now) == Waits(m, cfg, id, req, now);
  }

  /** What the job looks like then. */
  function RunningJob(m: Master, cfg: Config, id: string, req: JobRequest, now: int, x: Member): JobRec {
    Started(NewJob(SingleSpec(m, cfg, id, req, now)), x.name, now)
  }

  lemma StartedIsCalm(m: Master, cfg: Config, id: string, req: JobRequest, now: int, x: Member)
    requires Calm(m, x)
    ensures var m' := StartedOn(m, cfg, id, req, now, x);
            && Calm(m', x) && m'.ledger == Allocated(m.ledger, x.name, req.need)
            && m'.sched.jobs == m.sched.jobs[id := RunningJob(m, cfg, id, req, now, x)]
  {
  }

  /** From a calm state two events run one more job. */
  lemma RunOneMore(cfg: Config, r: Run, id: string, req: JobRequest, now: int, x: Member) returns (r': Run)
    requires Reached(cfg, r) && Calm(r.m, x) && HasRoom(cfg, r.m, req, x) && id !in r.m.sched.jobs
    ensures Reached(cfg, r') && r'.m == StartedOn(r.m, cfg, id, req, now, x)
  {
    var submitted := Next(cfg, r, JobSubmitted(id, req, now));
    NextReached(cfg, r, JobSubmitted(id, req, now));
    SubmittedWaits(r.m, cfg, id, req, now, x);
    assert submitted.m == Waits(r.m, cfg, id, req, now);
    r' := Next(cfg, submitted, Ticked([], now));
    NextReached(cfg, submitted, Ticked([], now));
    TickStarts(r.m, cfg, id, req, now, x);
  }

  lemma CalmTimers(m: Master, x: Member)
    requires Calm(m, x)
    ensures m.timers == []
  {
  }

  // ---------- the first job ----------

  lemma MemberArrives(cfg: Config, x: Member) returns (r: Run)
    requires x.name != "" && x.hasMeta
    ensures Reached(cfg, r) && r.m == Fresh(0).(members := [x]) && Calm(r.m, x)
  {
    NewbornReached(cfg);
    r := Next(cfg, Newborn(0), MemberJoined(x));
    NextReached(cfg, Newborn(0), MemberJoined(x));
    assert [] + [x] == [x];
  }

  lemma FirstJobRuns(cfg: Config, id: string, req: JobRequest, now: int, x: Member) returns (r: Run)
    requires IdleCluster.Suits(cfg, req, x)
    ensures Reached(cfg, r) && Calm(r.m, x)
    ensures r.m.sched.jobs == map[id := RunningJob(Fresh(0), cfg, id, req, now, x)]
    ensures r.m.ledger == Allocated(EMPTY, x.name, req.need)
  {
    var empty := MemberArrives(cfg, x);
    r := RunOneMore(cfg, empty, id, req, now, x);
    StartedIsCalm(empty.m, cfg, id, req, now, x);
    var job := RunningJob(Fresh(0), cfg, id, req, now, x);
    assert map[][id := job] == map[id := job];
  }

  lemma ReportArrives(cfg: Config, r: Run, result: Result, now: int) returns (r': Run)
    requires Reached(cfg, r)
    ensures Reached(cfg, r') && r'.m == ReportGuarded(r.m, result, now) && Core(r'.m) && Sound(r'.m.sched)
  {
    var e := Reported(result, now);
    r' := Next(cfg, r, e);
    assert Possible(r.m, e) && Apply(cfg, r.m, e) == ReportGuarded(r.m, result, now);
    hide Reached, Next, Apply, Possible, ReportGuarded;
    NextReached(cfg, r, e);
    ReachedInv(cfg, r');
  }

  lemma CancelArrives(cfg: Config, r: Run, id: string, now: int) returns (r': Run)
    requires Reached(cfg, r)
    ensures Reached(cfg, r') && r'.m == CancelJob(r.m, id, now) && Sound(r'.m.sched)
  {
    var e := CancelRequested(id, now);
    r' := Next(cfg, r, e);
    assert Possible(r.m, e) && Apply(cfg, r.m, e) == CancelJob(r.m, id, now);
    hide Reached, Next, Apply, Possible, CancelJob;
    NextReached(cfg, r, e);
    ReachedInv(cfg, r');
  }

  // ---------- a second retry ----------

  function FailureOf(id: string, node: string): Result {
    Result(id, false, "", "lost", node)
  }

  /** A single job failed and waits for its retry; nothing else is there. */
  ghost predicate AwaitsRetry(m: Master, id: string, due: int) {
    && InState(m.sched, id, Failed) && m.sched.jobs[id].spec.groupId == "" && m.sched.jobs[id].spec.id == id
    && m.sched.jobs[id].retryCount < m.sched.jobs[id].spec.maxRetries
    && m.timers == [Timer(id, due)] && m.sched.queue == []
  }

  lemma FailedAwaits(m: Master, r: Result, now: int, x: Member)
    requires Calm(m, x) && InState(m.sched, r.jobId, Running) && m.sched.jobs[r.jobId].spec.id == r.jobId
    requires Retries(m.sched.jobs[r.jobId], r)
    ensures AwaitsRetry(ReportGuarded(m, r, now), r.jobId, now + Backoff(m.sched.jobs[r.jobId].retryCount + 1))
  {
    assert [] + [Timer(r.jobId, now + Backoff(m.sched.jobs[r.jobId].retryCount + 1))]
        == [Timer(r.jobId, now + Backoff(m.sched.jobs[r.jobId].retryCount + 1))];
  }

  /** The same failure, reported again, starts a second timer; when both have fired the
      heap holds the job twice. */
  ghost predicate RetriedTwice(m: Master, r: Result, now: int) {
    var m' := ReportAsWritten(m, r, now);
    && |m'.timers| == 2 && |RetryFires(m', 0).timers| == 1
    && !Core(RetryFires(RetryFires(m', 0), 0))
  }

  lemma SecondReport(m: Master, r: Result, due: int, now: int)
    requires Sound(m.sched) && AwaitsRetry(m, r.jobId, due) && !r.success
    ensures RetriedTwice(m, r, now)
  {
    var later := now + Backoff(m.sched.jobs[r.jobId].retryCount + 1);
    var m' := ReportAsWritten(m, r, now);
    SettleTimers(m, r, now);
    assert m' == Settle(m, r, now) && m'.sched.queue == [];
    assert [Timer(r.jobId, due)] + [Timer(r.jobId, later)] == [Timer(r.jobId, due), Timer(r.jobId, later)];
    hide Settle, ReportAsWritten, RetryFires, Core;
    BothFire(m', r.jobId, due, later);
    HeldTwice(RetryFires(RetryFires(m', 0), 0), m'.sched.jobs[r.jobId].spec);
  }

  /** Four events: a member joins, a job that may be retried is submitted, a tick
      starts it, its failure is reported.  Then the report is delivered again. */
  lemma SecondRetryReached(cfg: Config, id: string, req: JobRequest, now: int, x: Member)
    requires IdleCluster.Suits(cfg, req, x) && cfg.maxRetries > 0
    ensures exists r :: Reached(cfg, r) && RetriedTwice(r.m, FailureOf(id, x.name), now)
  {
    var failure := FailureOf(id, x.name);
    var running := FirstJobRuns(cfg, id, req, now, x);
    hide ReportGuarded, AwaitsRetry, RetriedTwice, Reached, Core, Sound, Calm, Backoff;
    var failed := ReportArrives(cfg, running, failure, now);
    FailedAwaits(running.m, failure, now, x);
    SecondReport(failed.m, failure, now + Backoff(1), now);
  }

  // ---------- a cancelled job that runs again ----------

  /** The worker confirms the cancellation: the report starts a timer, and the timer
      queues the cancelled job. */
  ghost predicate Revived(m: Master, r: Result, now: int) {
    var m' := ReportAsWritten(m, r, now);
    && InState(m.sched, r.jobId, Cancelled) && |m'.timers| == 1
    && InState(RetryFires(m', 0).sched, r.jobId, Queued)
  }

  lemma CancelledNow(m: Master, id: string, now: int)
    requires InState(m.sched, id, Running) && m.sched.jobs[id].spec.id == id
    ensures var m' := CancelJob(m, id, now);
            && InState(m'.sched, id, Cancelled) && m'.timers == m.timers
            && m'.sched.jobs[id] == m.sched.jobs[id].(state := Cancelled, endTime := now)
  {
  }

  function Confirmation(id: string, node: string): Result {
    Result(id, false, "", "cancelled", node)
  }

  /** Four events: a member joins, a job that may be retried is submitted, a tick
      starts it, it is cancelled.  Then its worker confirms. */
  lemma RevivalReached(cfg: Config, id: string, req: JobRequest, now: int, x: Member)
    requires IdleCluster.Suits(cfg, req, x) && cfg.maxRetries > 0
    ensures exists r :: Reached(cfg, r) && Revived(r.m, Confirmation(id, x.name), now)
  {
    var running := FirstJobRuns(cfg, id, req, now, x);
    hide CancelJob, Reached, ReportAsWritten, RetryFires, Sound, Calm;
    var cancelled := CancelArrives(cfg, running, id, now);
    CancelledNow(running.m, id, now);
    assert running.m.timers == [] by { CalmTimers(running.m, x); }
    CancelledJobQueuedAgain(cancelled.m, Confirmation(id, x.name), now);
    assert Revived(cancelled.m, Confirmation(id, x.name), now);
  }

  // ---------- a double release ----------

  /** The member has room for both jobs at once, and both use GPUs. */
  predicate SuitsBoth(cfg: Config, a: JobRequest, b: JobRequest, x: Member) {
    && IdleCluster.Suits(cfg, a, x) && IdleCluster.Suits(cfg, b, x) && a.need.gpus > 0 && b.need.gpus > 0
    && a.need.gpus + b.need.gpus <= x.total.gpus && a.need.cpus + b.need.cpus <= x.total.cpus
    && a.need.mem + b.need.mem <= x.total.mem
  }

  lemma RoomForSecond(cfg: Config, m: Master, a: JobRequest, b: JobRequest, x: Member)
    requires SuitsBoth(cfg, a, b, x) && m.ledger == Allocated(EMPTY, x.name, a.need)
    ensures HasRoom(cfg, m, b, x)
  {
  }

  /** Two jobs run on the member. */
  lemma TwoJobsRun(cfg: Config, ida: string, idb: string, a: JobRequest, b: JobRequest, now: int, x: Member)
    returns (r: Run)
    requires SuitsBoth(cfg, a, b, x) && ida != idb
    ensures Reached(cfg, r) && Calm(r.m, x)
    ensures InState(r.m.sched, ida, Running) && r.m.sched.jobs[ida] == RunningJob(Fresh(0), cfg, ida, a, now, x)
    ensures InState(r.m.sched, idb, Running) && r.m.sched.jobs[idb].worker == x.name
    ensures r.m.sched.jobs[idb].spec.need == b.need
  {
    var first := FirstJobRuns(cfg, ida, a, now, x);
    RoomForSecond(cfg, first.m, a, b, x);
    r := RunOneMore(cfg, first, idb, b, now, x);
    StartedIsCalm(first.m, cfg, idb, b, now, x);
  }

  /** The report gives away GPUs of a job that still runs: the ledger holds fewer than
      the jobs on the node use. */
  ghost predicate GivesAway(m: Master, r: Result, now: int, id: string, node: string) {
    var m' := ReportAsWritten(m, r, now);
    && InState(m'.sched, id, Running) && m'.sched.jobs[id].worker == node
    && Held(m'.ledger, node).gpus < Load(m'.sched.jobs, node).gpus
  }

  lemma ReleasedLess(l: Ledger, node: string, need: Res)
    requires node != "" && need.gpus > 0 && Held(l, node).gpus > 0
    ensures Held(Released(l, node, need), node).gpus < Held(l, node).gpus
  {
  }

  lemma AccountOf(m: Master, r: Result, now: int, id: string)
    requires Core(m) && InState(m.sched, r.jobId, Completed) && InState(m.sched, id, Running)
    requires m.sched.jobs[id].spec.need.gpus > 0
    ensures var node := m.sched.jobs[id].worker;
            && node != "" && Held(m.ledger, node).gpus > 0
            && Load(m.sched.jobs[r.jobId := Resettled(m.sched.jobs[r.jobId], r, now)], node) == Held(m.ledger, node)
  {
    var node := m.sched.jobs[id].worker;
    LoadUpdated(m.sched.jobs, r.jobId, Resettled(m.sched.jobs[r.jobId], r, now), node);
    LoadCoversJob(m.sched.jobs, id);
    assert WellPlaced(m.sched.jobs[id], m.members);
    assert Held(m.ledger, node) == Load(m.sched.jobs, node);
  }

  lemma ReleasedAgain(m: Master, r: Result, now: int, id: string)
    requires Core(m) && Sound(m.sched) && InState(m.sched, r.jobId, Completed) && InState(m.sched, id, Running)
    requires m.sched.jobs[r.jobId].spec.groupId == "" && m.sched.jobs[r.jobId].worker == m.sched.jobs[id].worker
    requires m.sched.jobs[r.jobId].spec.need.gpus > 0 && m.sched.jobs[id].spec.need.gpus > 0
    ensures GivesAway(m, r, now, id, m.sched.jobs[id].worker)
  {
    assert Keyed(m.sched.jobs);
    hide Core, Sound, Keyed, Settle, ReportAsWritten, Released, Held, Resettled;
    SingleCompletesNothing(m, r, now);
    SettleEffect(m, r, now);
    AccountOf(m, r, now, id);
    ReleasedLess(m.ledger, m.sched.jobs[id].worker, m.sched.jobs[r.jobId].spec.need);
  }

  /** Six events: a member joins, two jobs are submitted and started one after the
      other, the first succeeds.  Then its report is delivered again. */
  lemma OvercommitReached(cfg: Config, ida: string, idb: string, a: JobRequest, b: JobRequest, now: int, x: Member)
    requires SuitsBoth(cfg, a, b, x) && ida != idb
    ensures exists r :: Reached(cfg, r) && GivesAway(r.m, Result(ida, true, "", "", x.name), now, idb, x.name)
  {
    var success := Result(ida, true, "", "", x.name);
    var running := TwoJobsRun(cfg, ida, idb, a, b, now, x);
    var job := RunningJob(Fresh(0), cfg, ida, a, now, x);
    assert job.spec.id == ida && job.spec.groupId == "" && job.worker == x.name && job.spec.need == a.need;
    ReachedInv(cfg, running);
    assert Sound(running.m.sched) && Keyed(running.m.sched.jobs);
    hide ReportGuarded, Reached, GivesAway, Core, Sound, Keyed, Inv, RunningJob;
    var done := ReportArrives(cfg, running, success, now);
    CompletedNow(running.m, success, now, idb);
    ReleasedAgain(done.m, success, now, idb);
  }

  lemma CompletedNow(m: Master, r: Result, now: int, id: string)
    requires Sound(m.sched) && Keyed(m.sched.jobs) && InState(m.sched, r.jobId, Running) && r.success
    requires m.sched.jobs[r.jobId].spec.groupId == "" && id in m.sched.jobs && id != r.jobId
    ensures var m' := ReportGuarded(m, r, now);
            && InState(m'.sched, r.jobId, Completed) && id in m'.sched.jobs && m'.sched.jobs[id] == m.sched.jobs[id]
            && m'.sched.jobs[r.jobId].spec == m.sched.jobs[r.jobId].spec
            && m'.sched.jobs[r.jobId].worker == m.sched.jobs[r.jobId].worker
  {
    hide Settle, Sound, Keyed, ReportAsWritten;
    SingleCompletesNothing(m, r, now);
    SettleEffect(m, r, now);
  }
}
