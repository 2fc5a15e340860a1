/** What cancellations, reports, retries and sweeps do to the jobs they are about, in
    plain fields, and that they leave everybody else alone. */
module Outcomes {
  import opened Types
  import opened HeapOrder
  import opened Scheduling
  import opened Ledger
  import opened MasterSteps
  import opened Placement
  import opened CoreSteps
  import opened Continuity
  import opened ContinuitySteps
  import opened Events

  /** The job's node holds exactly the job's demand less, every other what it held. */
  ghost predicate GivesBack(l: Ledger, l': Ledger, job: JobRec) {
    forall node :: Held(l', node) == if node == job.worker then Held(l, node).Minus(job.spec.need) else Held(l, node)
  }

  lemma ReleaseGivesBack(m: Master, id: string)
    requires Core(m) && InState(m.sched, id, Running)
    ensures var job := m.sched.jobs[id];
            job.worker != "" && GivesBack(m.ledger, Released(m.ledger, job.worker, job.spec.need), job)
  {
    assert WellPlaced(m.sched.jobs[id], m.members);
    LoadCoversJob(m.sched.jobs, id);
    ReleaseSubtracts(m.ledger, m.sched.jobs[id].worker, m.sched.jobs[id].spec.need);
  }

  // ---------- cancellation ----------

  /** Cancelling a RUNNING job frees its node and orders its worker to stop it;
      cancelling a QUEUED one takes it out of the heap; cancelling any other does
      nothing. */
  lemma CancelExact(m: Master, id: string, now: int)
    requires Core(m)
    ensures var m' := CancelJob(m, id, now);
            if InState(m.sched, id, Running) then
              var job := m.sched.jobs[id];
              && m'.sched.jobs == m.sched.jobs[id := job.(state := Cancelled, endTime := now)]
              && m'.sched.queue == m.sched.queue && m'.sched.groups == m.sched.groups
              && GivesBack(m.ledger, m'.ledger, job)
              && m' == m.(sched := m'.sched, ledger := m'.ledger, sent := m.sent + [Kill(job.worker, id)])
            else if InState(m.sched, id, Queued) then
              var job := m.sched.jobs[id];
              && m'.sched.jobs == m.sched.jobs[id := job.(state := Cancelled, endTime := now)]
              && multiset(m'.sched.queue) == multiset(m.sched.queue) - multiset{job.spec}
              && m'.sched.groups == m.sched.groups && m' == m.(sched := m'.sched)
            else m' == m
  {
    if InState(m.sched, id, Running) {
      ReleaseGivesBack(m, id);
    } else if InState(m.sched, id, Queued) {
      assert WellPlaced(m.sched.jobs[id], m.members);
      WithoutTakesJob(m.sched.jobs, m.sched.queue, id);
    }
  }

  // ---------- reports ----------

  /** The record of a job whose run was reported. */
  predicate SettledAs(rec: JobRec, job: JobRec, r: Result, now: int) {
    rec == job.(state := if r.success then Completed else Failed, output := r.output, error := r.error, endTime := now)
  }

  /** Retry number retryCount + 1 comes after (retryCount + 1) squared times ten
      seconds. */
  predicate TimerStarted(timers: seq<Timer>, timers': seq<Timer>, job: JobRec, r: Result, now: int) {
    timers' == if !r.success && job.spec.groupId == "" && job.retryCount < job.spec.maxRetries
               then timers + [Timer(r.jobId, now + (job.retryCount + 1) * (job.retryCount + 1) * 10_000_000_000)]
               else timers
  }

  /** A failure that is not retried leaves a dead letter if the job had retries. */
  ghost predicate LetterLeft(letters: map<string, JobRec>, letters': map<string, JobRec>, rec: JobRec, r: Result) {
    letters' == if !r.success && rec.retryCount >= rec.spec.maxRetries > 0 then letters[r.jobId := rec] else letters
  }

  lemma SettleExact(m: Master, r: Result, now: int)
    requires Core(m) && InState(m.sched, r.jobId, Running)
    ensures var m' := Settle(m, r, now);
            var job := m.sched.jobs[r.jobId];
            && r.jobId in m'.sched.jobs
            && m'.sched.jobs == m.sched.jobs[r.jobId := m'.sched.jobs[r.jobId]]
            && SettledAs(m'.sched.jobs[r.jobId], job, r, now)
            && m'.sched.queue == m.sched.queue && m'.sched.groups == m.sched.groups
            && GivesBack(m.ledger, m'.ledger, job)
            && TimerStarted(m.timers, m'.timers, job, r, now)
            && LetterLeft(m.deadLetters, m'.deadLetters, m'.sched.jobs[r.jobId], r)
            && m'.sent == m.sent && m'.pending == m.pending && m'.members == m.members
  {
    ReleaseGivesBack(m, r.jobId);
    hide Core, Judged, Billed, GivesBack, Released;
  }

  lemma CompletionKeepsFinished(m: Master, r: Result, now: int)
    requires Sound(m.sched) && r.jobId in m.sched.jobs && Finished(m.sched.jobs[r.jobId])
    ensures r.jobId in CompleteGroup(m, r, now).sched.jobs
    ensures CompleteGroup(m, r, now).sched.jobs[r.jobId] == m.sched.jobs[r.jobId]
  {
    CompleteGroupSteady(m, r, now);
    assert Follows(m.sched.jobs[r.jobId], CompleteGroup(m, r, now).sched.jobs[r.jobId]);
  }

  /** The first report about a run settles its job, starts its retry timer and files its
      dead letter, also for a rank. */
  lemma ReportSettles(m: Master, r: Result, now: int)
    requires Core(m) && Sound(m.sched) && InState(m.sched, r.jobId, Running)
    ensures var m' := ReportGuarded(m, r, now);
            var job := m.sched.jobs[r.jobId];
            && r.jobId in m'.sched.jobs && SettledAs(m'.sched.jobs[r.jobId], job, r, now)
            && TimerStarted(m.timers, m'.timers, job, r, now)
            && LetterLeft(m.deadLetters, m'.deadLetters, m'.sched.jobs[r.jobId], r)
  {
    var settled := Settle(m, r, now);
    SettleExact(m, r, now);
    SettleSteady(m, r, now);
    SoundStays(m.sched, settled.sched);
    CompletionKeepsFinished(settled, r, now);
    CompleteGroupBooks(settled, r, now);
    hide Core, Settle, CompleteGroup, Steady, Sound;
  }

  /** The first report about a run of a single job frees its node and touches nobody
      else; a report about a single job that is not RUNNING changes nothing but the
      breaker. */
  lemma SingleReportExact(m: Master, r: Result, now: int)
    requires Core(m) && r.jobId in m.sched.jobs && m.sched.jobs[r.jobId].spec.groupId == ""
    ensures var m' := ReportGuarded(m, r, now);
            var job := m.sched.jobs[r.jobId];
            if job.state == Running then
              && r.jobId in m'.sched.jobs
              && m'.sched.jobs == m.sched.jobs[r.jobId := m'.sched.jobs[r.jobId]]
              && SettledAs(m'.sched.jobs[r.jobId], job, r, now)
              && m'.sched.queue == m.sched.queue && m'.sched.groups == m.sched.groups
              && GivesBack(m.ledger, m'.ledger, job)
              && m'.sent == m.sent && m'.pending == m.pending && m'.members == m.members
            else m' == m.(breaker := m'.breaker)
  {
    if m.sched.jobs[r.jobId].state == Running {
      SettleExact(m, r, now);
      hide Core, Settle, GivesBack;
    }
  }

  // ---------- retries ----------

  /** When a retry is due, its FAILED job goes back into the heap without a trace of its
      run, one retry older, and its timer is gone. */
  lemma RetryExact(m: Master, i: nat)
    requires Core(m) && TimersOk(m) && i < |m.timers|
    ensures var m' := RetryFires(m, i);
            var id := m.timers[i].jobId;
            && InState(m.sched, id, Failed)
            && var job := m.sched.jobs[id];
            && m'.sched.jobs == m.sched.jobs[id := JobRec(job.spec, job.retryCount + 1, Queued, "", 0, 0, "", "")]
            && multiset(m'.sched.queue) == multiset(m.sched.queue) + multiset{job.spec}
            && m'.sched.groups == m.sched.groups
            && m' == m.(sched := m'.sched, timers := m.timers[..i] + m.timers[i + 1..])
  {
    assert TimerOk(m.sched, m.timers[i]);
    PushCorrect(m.sched.queue, m.sched.jobs[m.timers[i].jobId].spec);
  }

  // ---------- the walltime sweep ----------

  /** The job has run for longer than its walltime, in seconds. */
  predicate TooLong(rec: JobRec, now: int) {
    rec.spec.walltime > 0 && now - rec.startTime > rec.spec.walltime * 1_000_000_000
  }

  lemma OverranIsTooLong(rec: JobRec, now: int)
    ensures Overran(rec, now) <==> TooLong(rec, now)
  {
  }

  /** What a walltime sweep makes of a running job. */
  function AfterWalltime(rec: JobRec, now: int): JobRec {
    if TooLong(rec, now) then rec.(state := Cancelled, endTime := now) else rec
  }

  lemma Kill1Effect(m: Master, rec: JobRec, now: int)
    requires InState(m.sched, rec.spec.id, Running) && m.sched.jobs[rec.spec.id] == rec
    ensures Kill1(m, rec, now).sched.jobs == m.sched.jobs[rec.spec.id := AfterWalltime(rec, now)]
  {
    OverranIsTooLong(rec, now);
  }

  lemma Kill1Says(m: Master, rec: JobRec, now: int)
    ensures Kill1(m, rec, now).sent == m.sent + if TooLong(rec, now) then [Kill(rec.worker, rec.spec.id)] else []
  {
    OverranIsTooLong(rec, now);
  }

  lemma {:induction false} WalltimeEffect(m: Master, recs: seq<JobRec>, now: int, id: string)
    requires Keyed(m.sched.jobs) && Current(m, recs) && id in m.sched.jobs
    ensures id in WalltimeSweep(m, recs, now).sched.jobs
    ensures WalltimeSweep(m, recs, now).sched.jobs[id]
         == if m.sched.jobs[id] in recs then AfterWalltime(m.sched.jobs[id], now) else m.sched.jobs[id]
    decreases |recs|
  {
    if recs != [] {
      var next := Kill1(m, recs[0], now);
      assert recs[0] in recs;
      Kill1Effect(m, recs[0], now);
      CurrentTail(m, next, recs);
      hide Kill1, AfterWalltime, TooLong;
      WalltimeEffect(next, recs[1..], now, id);
      if id == recs[0].spec.id {
        assert next.sched.jobs[id] !in recs[1..] by {
          assert forall k | 0 <= k < |recs[1..]| :: recs[1..][k] == recs[k + 1];
        }
      } else {
        assert m.sched.jobs[id] in recs <==> m.sched.jobs[id] in recs[1..];
      }
    }
  }

  /** The orders to stop, one for each job that ran too long, in the order of the
      listing. */
  function StopOrders(recs: seq<JobRec>, now: int): seq<Payload> {
    if recs == [] then []
    else (if TooLong(recs[0], now) then [Kill(recs[0].worker, recs[0].spec.id)] else []) + StopOrders(recs[1..], now)
  }

  lemma OrdersJoin(sent: seq<Payload>, recs: seq<JobRec>, now: int)
    requires recs != []
    ensures sent + (if TooLong(recs[0], now) then [Kill(recs[0].worker, recs[0].spec.id)] else [])
            + StopOrders(recs[1..], now) == sent + StopOrders(recs, now)
  {
  }

  lemma {:induction false} WalltimeOrders(m: Master, recs: seq<JobRec>, now: int)
    ensures WalltimeSweep(m, recs, now).sent == m.sent + StopOrders(recs, now)
    decreases |recs|
  {
    if recs != [] {
      var next := Kill1(m, recs[0], now);
      Kill1Says(m, recs[0], now);
      WalltimeOrders(next, recs[1..], now);
      assert WalltimeSweep(m, recs, now) == WalltimeSweep(next, recs[1..], now);
      hide *;
      OrdersJoin(m.sent, recs, now);
    }
  }

  lemma {:induction false} StopOrdersAre(recs: seq<JobRec>, now: int, p: Payload)
    ensures p in StopOrders(recs, now)
        <==> exists r :: r in recs && TooLong(r, now) && p == Kill(r.worker, r.spec.id)
  {
    if recs != [] {
      StopOrdersAre(recs[1..], now, p);
      if r :| r in recs && TooLong(r, now) && p == Kill(r.worker, r.spec.id) {
        assert r == recs[0] || r in recs[1..];
      }
    }
  }

  /** A sweep over the running jobs, in whatever order, cancels exactly those that have
      run longer than their walltime, orders exactly their workers to stop them, and
      says nothing else. */
  lemma WalltimeKillsOverruns(m: Master, running: seq<JobRec>, now: int, id: string)
    requires Keyed(m.sched.jobs) && Lists(m.sched, RunsAnywhere(), running) && id in m.sched.jobs
    ensures var m' := WalltimeSweep(m, running, now);
            var job := m.sched.jobs[id];
            var late := job.state == Running && job.spec.walltime > 0
                        && now - job.startTime > job.spec.walltime * 1_000_000_000;
            && id in m'.sched.jobs
            && m'.sched.jobs[id] == (if late then job.(state := Cancelled, endTime := now) else job)
            && m.sent <= m'.sent
            && (forall p | p in m'.sent[|m.sent|..] && p.jobId == id :: late && p == Kill(job.worker, id))
            && (late ==> Kill(job.worker, id) in m'.sent[|m.sent|..])
  {
    var m' := WalltimeSweep(m, running, now);
    var job := m.sched.jobs[id];
    WalltimeEffect(m, running, now, id);
    WalltimeOrders(m, running, now);
    assert m'.sent[|m.sent|..] == StopOrders(running, now);
    assert job in running <==> job.state == Running by {
      assert RunsAnywhere()(job) <==> job.state == Running;
    }
    hide WalltimeSweep, StopOrders;
    forall p | p in m'.sent[|m.sent|..] && p.jobId == id
      ensures job.state == Running && TooLong(job, now) && p == Kill(job.worker, id)
    {
      StopOrdersAre(running, now, p);
    }
    StopOrdersAre(running, now, Kill(job.worker, id));
  }

  // ---------- the loss of a node ----------

  /** When a member leaves, exactly the jobs running there fail, in whatever order
      they are listed, and nothing is held on the node any more. */
  lemma NodeLossFailsItsJobs(m: Master, name: string, lost: seq<JobRec>, now: int, id: string)
    requires Core(m) && Lists(m.sched, RunsOn(name), lost) && id in m.sched.jobs
    ensures var m' := NodeLeaves(m, name, lost, now);
            var rec := m.sched.jobs[id];
            && id in m'.sched.jobs
            && m'.sched.jobs[id]
               == (if rec.state == Running && rec.worker == name
                   then rec.(state := Failed, output := "", error := "worker node lost", endTime := now) else rec)
            && Held(m'.ledger, name) == NOTHING
            && (forall x :: x in m'.members <==> x in m.members && x.name != name)
  {
    var m' := NodeLeaves(m, name, lost, now);
    LoseAllEffect(m.(members := Others(m.members, name)), name, lost, now);
    LeaveCore(m, name, lost, now);
    forall k | k in m'.sched.jobs ensures !(m'.sched.jobs[k].state == Running && m'.sched.jobs[k].worker == name) {
      assert RunsOn(name)(m.sched.jobs[k]) <==> m.sched.jobs[k] in lost;
    }
    assert RunsOn(name)(m.sched.jobs[id]) <==> m.sched.jobs[id] in lost;
    NoJobsNoLoad(m'.sched.jobs, name);
  }

  /** One of the jobs is a rank of the group. */
  ghost predicate Hits(recs: seq<JobRec>, gid: string) {
    exists r :: r in recs && r.spec.groupId == gid
  }

  lemma Lose1Group(m: Master, node: string, rec: JobRec, now: int, gid: string)
    requires GroupsNamed(m.sched) && gid in m.sched.groups && gid != ""
    ensures var s' := Lose1(m, node, rec, now).sched;
            && GroupsNamed(s') && gid in s'.groups
            && s'.groups[gid] == (if m.sched.groups[gid].state == GroupRunning && rec.spec.groupId == gid
                                  then m.sched.groups[gid].(state := GroupFailed) else m.sched.groups[gid])
  {
  }

  lemma {:induction false} LoseAllGroup(m: Master, node: string, recs: seq<JobRec>, now: int, gid: string)
    requires GroupsNamed(m.sched) && gid in m.sched.groups && gid != ""
    ensures var s' := LoseAll(m, node, recs, now).sched;
            && gid in s'.groups
            && s'.groups[gid] == (if m.sched.groups[gid].state == GroupRunning && Hits(recs, gid)
                                  then m.sched.groups[gid].(state := GroupFailed) else m.sched.groups[gid])
    decreases |recs|
  {
    if recs != [] {
      Lose1Group(m, node, recs[0], now, gid);
      hide Lose1, GroupsNamed;
      LoseAllGroup(Lose1(m, node, recs[0], now), node, recs[1..], now, gid);
      assert recs[0] in recs;
      if r :| r in recs && r.spec.groupId == gid {
        assert r == recs[0] || r in recs[1..];
      }
    }
  }

  /** And exactly the RUNNING groups that lost a rank fail. */
  lemma NodeLossFailsItsGangs(m: Master, name: string, lost: seq<JobRec>, now: int, gid: string)
    requires GroupsNamed(m.sched) && Lists(m.sched, RunsOn(name), lost) && gid in m.sched.groups && gid != ""
    ensures var m' := NodeLeaves(m, name, lost, now);
            var g := m.sched.groups[gid];
            && gid in m'.sched.groups
            && m'.sched.groups[gid]
               == (if g.state == GroupRunning
                      && exists id :: id in m.sched.jobs && m.sched.jobs[id].state == Running
                                      && m.sched.jobs[id].worker == name && m.sched.jobs[id].spec.groupId == gid
                   then g.(state := GroupFailed) else g)
  {
    LoseAllGroup(m.(members := Others(m.members, name)), name, lost, now, gid);
    hide LoseAll;
    if id :| id in m.sched.jobs && m.sched.jobs[id].state == Running && m.sched.jobs[id].worker == name
             && m.sched.jobs[id].spec.groupId == gid {
      assert RunsOn(name)(m.sched.jobs[id]);
      assert Hits(lost, gid);
    }
  }
}
