/** Retries are counted exactly: every reported failure of a single job is a past
    retry, a pending one, or a dead letter. */
module RetryAccounting {
  import opened Types
  import opened Scheduling
  import opened MasterSteps
  import opened Continuity
  import opened Events
  import opened Runs

  /** How many retry timers the job has. */
  function PendingRetries(timers: seq<Timer>, id: string): nat {
    if timers == [] then 0
    else PendingRetries(timers[..|timers| - 1], id) + (if timers[|timers| - 1].jobId == id then 1 else 0)
  }

  /** The backoff before the first m retries together. */
  function TotalBackoff(m: nat): int {
    if m == 0 then 0 else TotalBackoff(m - 1) + Backoff(m)
  }

  /** 10 m (m + 1) (2 m + 1) / 6 seconds. */
  lemma {:induction false} TotalBackoffClosed(m: nat)
    ensures 6 * TotalBackoff(m) == 10_000_000_000 * (m * (m + 1) * (2 * m + 1))
  {
    if m > 0 {
      TotalBackoffClosed(m - 1);
      assert m * (m + 1) * (2 * m + 1) == (m - 1) * m * (2 * (m - 1) + 1) + 6 * (m * m);
    }
  }

  lemma TimerAppended(timers: seq<Timer>, t: Timer, id: string)
    ensures PendingRetries(timers + [t], id) == PendingRetries(timers, id) + (if t.jobId == id then 1 else 0)
  {
    assert (timers + [t])[..|timers|] == timers;
  }

  lemma {:induction false} TimerRemoved(timers: seq<Timer>, i: nat, id: string)
    requires i < |timers|
    ensures PendingRetries(timers[..i] + timers[i + 1..], id)
         == PendingRetries(timers, id) - (if timers[i].jobId == id then 1 else 0)
    decreases |timers|
  {
    var n := |timers| - 1;
    if i == n {
      assert timers[..i] + timers[i + 1..] == timers[..n];
    } else {
      var rest := timers[..i] + timers[i + 1..];
      assert rest[..|rest| - 1] == timers[..n][..i] + timers[..n][i + 1..];
      TimerRemoved(timers[..n], i, id);
    }
  }

  lemma {:induction false} TimersNamed(timers: seq<Timer>, id: string)
    ensures PendingRetries(timers, id) > 0 <==> exists t :: t in timers && t.jobId == id
  {
    if timers != [] {
      var n := |timers| - 1;
      TimersNamed(timers[..n], id);
      assert timers == timers[..n] + [timers[n]];
    }
  }

  /** The job may be retried. */
  predicate Retrying(spec: JobSpec) {
    spec.groupId == "" && spec.maxRetries > 0
  }

  /** failures = retries done + pending retries + dead letter; and the backoff of
      all retries, done and pending, was scheduled. */
  ghost predicate Balance(rec: JobRec, pending: nat, failed: int, waited: int, letter: Option<JobRec>) {
    && 0 <= rec.retryCount <= rec.spec.maxRetries
    && failed == rec.retryCount + pending + (if letter.Some? then 1 else 0)
    && waited == TotalBackoff(rec.retryCount + pending)
    && (letter.Some? ==> Exhausted(rec) && letter.value.spec == rec.spec && letter.value.retryCount == rec.retryCount)
  }

  /** A failed job that used up its retries. */
  predicate Exhausted(rec: JobRec) {
    rec.state == Failed && rec.retryCount == rec.spec.maxRetries
  }

  function Letter(m: Master, id: string): Option<JobRec> {
    if id in m.deadLetters then Some(m.deadLetters[id]) else None
  }

  /** The books of one job balance. */
  ghost predicate Balanced(r: Run, id: string)
    requires id in r.m.sched.jobs
  {
    Balance(r.m.sched.jobs[id], PendingRetries(r.m.timers, id), Get(r.failures, id), Get(r.waited, id), Letter(r.m, id))
  }

  ghost predicate Accounts(r: Run) {
    && r.failures.Keys <= r.m.sched.jobs.Keys
    && r.waited.Keys <= r.m.sched.jobs.Keys
    && (forall id | id in r.m.sched.jobs && Retrying(r.m.sched.jobs[id].spec) :: Balanced(r, id))
  }

  // ---------- per event ----------

  /** Identity, retry count and failure are kept; books and timers are kept. */
  lemma KeptBalance(r: Run, r': Run, id: string)
    requires id in r.m.sched.jobs && Balanced(r, id)
    requires id in r'.m.sched.jobs && Follows(r.m.sched.jobs[id], r'.m.sched.jobs[id])
    requires PendingRetries(r'.m.timers, id) == PendingRetries(r.m.timers, id)
    requires Get(r'.failures, id) == Get(r.failures, id) && Get(r'.waited, id) == Get(r.waited, id)
    requires Letter(r'.m, id) == Letter(r.m, id)
    ensures Balanced(r', id)
  {
  }

  /** A failure either schedules the next retry or leaves a dead letter. */
  lemma OneMoreFailure(job: JobRec, rec: JobRec, failed: int, waited: int, r: Result, now: int)
    requires Balance(job, 0, failed, waited, None) && Retrying(job.spec) && !r.success
    requires rec.spec == job.spec && rec.retryCount == job.retryCount && rec.state == Failed
    ensures if Retries(job, r) then Balance(rec, 1, failed + 1, waited + Backoff(job.retryCount + 1), None)
            else GivesUp(job, r) && Balance(rec, 0, failed + 1, waited, Some(Failure(job, r, now)))
  {
  }

  lemma RunningHasNoTimer(m: Master, id: string)
    requires TimersOk(m) && !InState(m.sched, id, Failed)
    ensures PendingRetries(m.timers, id) == 0
  {
    TimersNamed(m.timers, id);
    forall t | t in m.timers ensures t.jobId != id {
      assert TimerOk(m.sched, t);
    }
  }

  /** What the run's books say after a failure that reached its job. */
  lemma FailureBooks(r: Run, e: Event, m': Master)
    requires EffectiveFailure(r.m, e)
    ensures Moved(r, e, m').failures == Added(r.failures, e.result.jobId, 1)
    ensures Moved(r, e, m').waited
         == if Retries(r.m.sched.jobs[e.result.jobId], e.result)
            then Added(r.waited, e.result.jobId, Backoff(r.m.sched.jobs[e.result.jobId].retryCount + 1)) else r.waited
  {
  }

  /** The job whose failure was reported. */
  lemma FailureBalance(r: Run, result: Result, now: int, m': Master)
    requires TimersOk(r.m) && Accounts(r) && Booked(r.m, result, now, m')
    requires EffectiveFailure(r.m, Reported(result, now)) && Retrying(r.m.sched.jobs[result.jobId].spec)
    ensures result.jobId in m'.sched.jobs && Balanced(Moved(r, Reported(result, now), m'), result.jobId)
  {
    var id := result.jobId;
    var job := r.m.sched.jobs[id];
    assert Balanced(r, id) && Letter(r.m, id) == None;
    hide Balance, TotalBackoff;
    RunningHasNoTimer(r.m, id);
    OneMoreFailure(job, m'.sched.jobs[id], Get(r.failures, id), Get(r.waited, id), result, now);
    FailureBooks(r, Reported(result, now), m');
    TimerAppended(r.m.timers, Timer(id, now + Backoff(job.retryCount + 1)), id);
  }

  /** A report touches timers and letters of its own job only. */
  lemma BystanderBooks(m: Master, result: Result, now: int, m': Master, id: string)
    requires Booked(m, result, now, m')
    requires id != result.jobId || !EffectiveFailure(m, Reported(result, now))
    ensures PendingRetries(m'.timers, id) == PendingRetries(m.timers, id)
    ensures Letter(m', id) == Letter(m, id)
  {
    if EffectiveFailure(m, Reported(result, now)) {
      TimerAppended(m.timers, Timer(result.jobId, now + Backoff(m.sched.jobs[result.jobId].retryCount + 1)), id);
    }
  }

  lemma BystanderRun(r: Run, e: Event, m': Master, id: string)
    requires !EffectiveFailure(r.m, e) || id != e.result.jobId
    ensures Get(Moved(r, e, m').failures, id) == Get(r.failures, id)
    ensures Get(Moved(r, e, m').waited, id) == Get(r.waited, id)
  {
  }

  /** Anyone else, while a report is handled. */
  lemma BystanderBalance(r: Run, result: Result, now: int, m': Master, id: string)
    requires Accounts(r) && Booked(r.m, result, now, m')
    requires id in r.m.sched.jobs && Retrying(r.m.sched.jobs[id].spec)
    requires id in m'.sched.jobs && Follows(r.m.sched.jobs[id], m'.sched.jobs[id])
    requires id != result.jobId || !EffectiveFailure(r.m, Reported(result, now))
    ensures Balanced(Moved(r, Reported(result, now), m'), id)
  {
    BystanderBooks(r.m, result, now, m', id);
    BystanderRun(r, Reported(result, now), m', id);
    KeptBalance(r, Moved(r, Reported(result, now), m'), id);
  }

  lemma ReportBalance(r: Run, result: Result, now: int, m': Master, id: string)
    requires TimersOk(r.m) && Accounts(r) && Booked(r.m, result, now, m') && Evolves(r.m.sched, m'.sched)
    requires id in m'.sched.jobs && Retrying(m'.sched.jobs[id].spec)
    ensures Balanced(Moved(r, Reported(result, now), m'), id)
  {
    assert Follows(r.m.sched.jobs[id], m'.sched.jobs[id]);
    if id == result.jobId && EffectiveFailure(r.m, Reported(result, now)) {
      FailureBalance(r, result, now, m');
    } else {
      BystanderBalance(r, result, now, m', id);
    }
  }

  /** A pending retry turns into a retry done. */
  lemma OneMoreRetry(job: JobRec, pending: nat, failed: int, waited: int, letter: Option<JobRec>)
    requires Balance(job, pending, failed, waited, letter) && pending > 0
    requires job.retryCount < job.spec.maxRetries
    ensures Balance(Reset(job, true), pending - 1, failed, waited, letter)
  {
  }

  /** What a due retry does to timers and letters. */
  lemma RetryBooks(m: Master, i: nat, id: string)
    requires TimersOk(m) && Sound(m.sched) && i < |m.timers|
    ensures var m' := RetryFires(m, i);
            && PendingRetries(m'.timers, id) == PendingRetries(m.timers, id) - (if m.timers[i].jobId
                  == id then 1 else 0)
            && Letter(m', id) == Letter(m, id)
  {
    TimerRemoved(m.timers, i, id);
  }

  lemma RetryBalance(r: Run, e: Event, id: string)
    requires TimersOk(r.m) && Sound(r.m.sched) && Accounts(r) && e.RetryDue? && e.timer < |r.m.timers|
    requires id in r.m.sched.jobs && Retrying(r.m.sched.jobs[id].spec)
    ensures id in RetryFires(r.m, e.timer).sched.jobs
    ensures Balanced(Moved(r, e, RetryFires(r.m, e.timer)), id)
  {
    var m' := RetryFires(r.m, e.timer);
    assert TimerOk(r.m.sched, r.m.timers[e.timer]);
    RetryEffect(r.m, e.timer);
    RetryBooks(r.m, e.timer, id);
    BystanderRun(r, e, m', id);
    assert Balanced(r, id);
    if id == r.m.timers[e.timer].jobId {
      OneMoreRetry(r.m.sched.jobs[id], PendingRetries(r.m.timers, id), Get(r.failures, id), Get(r.waited, id),
            Letter(r.m, id));
    }
  }

  /** A new single job has a clean record. */
  lemma NewBalance(r: Run, e: Event, m': Master, id: string)
    requires Inv(r) && Accounts(r) && e.JobSubmitted? && Effect(r.m, e, m')
    requires id in m'.sched.jobs && id !in r.m.sched.jobs && Retrying(m'.sched.jobs[id].spec)
    ensures Balanced(Moved(r, e, m'), id)
  {
    RunningHasNoTimer(r.m, id);
    BystanderRun(r, e, m', id);
  }

  lemma SubmissionBalance(r: Run, e: Event, m': Master, id: string)
    requires Inv(r) && Accounts(r) && Effect(r.m, e, m')
    requires e.JobSubmitted? || e.GangSubmitted?
    requires id in m'.sched.jobs && Retrying(m'.sched.jobs[id].spec)
    ensures Balanced(Moved(r, e, m'), id)
  {
    if id in r.m.sched.jobs {
      KeptBalance(r, Moved(r, e, m'), id);
    } else {
      NewBalance(r, e, m', id);
    }
  }

  /** Every other event keeps identities, retry counts, timers and letters. */
  lemma SteadyBalance(r: Run, e: Event, m': Master, id: string)
    requires Accounts(r) && !e.Reported? && id in m'.sched.jobs
    requires Evolves(r.m.sched, m'.sched) && m'.timers == r.m.timers && m'.deadLetters == r.m.deadLetters
    requires Retrying(m'.sched.jobs[id].spec)
    ensures Balanced(Moved(r, e, m'), id)
  {
    assert Follows(r.m.sched.jobs[id], m'.sched.jobs[id]);
    KeptBalance(r, Moved(r, e, m'), id);
  }

  lemma SameEvolves(s: Sched, s': Sched)
    requires s' == s.(writes := s'.writes)
    ensures Evolves(s, s')
  {
  }

  /** Apart from submissions, reports and retries, events leave the books alone. */
  lemma OtherEffects(m: Master, e: Event, m': Master)
    requires Effect(m, e, m') && !e.JobSubmitted? && !e.GangSubmitted? && !e.Reported? && !e.RetryDue?
    ensures Evolves(m.sched, m'.sched) && m'.timers == m.timers && m'.deadLetters == m.deadLetters
  {
    match e {
      case Acknowledged(_) => SameEvolves(m.sched, m'.sched);
      case WroteBack => SameEvolves(m.sched, m'.sched);
      case _ =>
    }
  }

  lemma JobBalance(r: Run, e: Event, m': Master, id: string)
    requires Inv(r) && Accounts(r) && Effect(r.m, e, m')
    requires id in r.m.sched.jobs && id in m'.sched.jobs && m'.sched.jobs[id].spec == r.m.sched.jobs[id].spec
    requires Retrying(m'.sched.jobs[id].spec) && !e.JobSubmitted? && !e.GangSubmitted?
    ensures Balanced(Moved(r, e, m'), id)
  {
    if e.Reported? {
      ReportBalance(r, e.result, e.now, m', id);
    } else if e.RetryDue? {
      RetryBalance(r, e, id);
    } else {
      OtherEffects(r.m, e, m');
      SteadyBalance(r, e, m', id);
    }
  }

  lemma EventBalances(r: Run, e: Event, m': Master)
    requires Inv(r) && Accounts(r) && Effect(r.m, e, m')
    ensures Accounts(Moved(r, e, m'))
  {
    EffectKeeps(r.m, e, m');
    BooksTracked(r, e, m');
    forall id | id in m'.sched.jobs && Retrying(m'.sched.jobs[id].spec) ensures Balanced(Moved(r, e, m'), id) {
      if e.JobSubmitted? || e.GangSubmitted? {
        SubmissionBalance(r, e, m', id);
      } else {
        NobodyNew(r.m, e, m', id);
        JobBalance(r, e, m', id);
      }
    }
  }

  lemma NobodyNew(m: Master, e: Event, m': Master, id: string)
    requires Sound(m.sched) && TimersOk(m) && Effect(m, e, m') && !e.JobSubmitted? && !e.GangSubmitted?
    requires id in m'.sched.jobs
    ensures id in m.sched.jobs
  {
    match e {
      case RetryDue(i, _) =>
        assert TimerOk(m.sched, m.timers[i]);
        RetryEffect(m, i);
      case _ =>
    }
  }

  lemma BooksTracked(r: Run, e: Event, m': Master)
    requires r.failures.Keys <= r.m.sched.jobs.Keys && r.waited.Keys <= r.m.sched.jobs.Keys
    requires Keeps(r.m.sched, m'.sched)
    ensures Moved(r, e, m').failures.Keys <= m'.sched.jobs.Keys
    ensures Moved(r, e, m').waited.Keys <= m'.sched.jobs.Keys
  {
    assert r.m.sched.jobs.Keys <= m'.sched.jobs.Keys;
  }

  // ---------- every run ----------

  lemma StepBalances(cfg: Config, es: seq<Event>, rs: seq<Run>, i: nat)
    requires IsRun(cfg, es, rs) && i < |es| && Accounts(rs[i])
    ensures Accounts(rs[i + 1])
  {
    RunStep(cfg, es, rs, i);
    EventBalances(rs[i], es[i], rs[i + 1].m);
  }

  /** In every state of every run the retry books balance. */
  lemma {:induction false} RetriesAccounted(cfg: Config, es: seq<Event>, rs: seq<Run>, i: nat)
    requires IsRun(cfg, es, rs) && i < |rs| && Accounts(rs[0])
    ensures Accounts(rs[i])
  {
    if i > 0 {
      RetriesAccounted(cfg, es, rs, i - 1);
      StepBalances(cfg, es, rs, i - 1);
    }
  }

  /** A master that starts with an empty database has balanced books. */
  lemma NewbornAccounts(maxQueueSize: int)
    ensures Accounts(Newborn(maxQueueSize))
  {
  }

  /** Seconds waited for the retries of a job, in closed form. */
  lemma BackoffOfBalanced(r: Run, id: string)
    requires id in r.m.sched.jobs && Balanced(r, id)
    ensures var k := r.m.sched.jobs[id].retryCount + PendingRetries(r.m.timers, id);
            6 * Get(r.waited, id) == 10_000_000_000 * (k * (k + 1) * (2 * k + 1))
  {
    TotalBackoffClosed(r.m.sched.jobs[id].retryCount + PendingRetries(r.m.timers, id));
  }
}
