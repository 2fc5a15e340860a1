/** The events that drive the master: when each can happen, what it does, and
    what that amounts to for jobs, groups, timers and the database. */
module Events {
  import opened Types
  import opened Scheduling
  import opened Ledger
  import opened MasterSteps
  import opened Placement
  import opened CoreSteps
  import opened Continuity
  import opened ContinuitySteps
  import opened Groups
  import opened DispatchTick
  import opened Submission
  import Fairshare

  datatype Event =
    | JobSubmitted(id: string, job: JobRequest, now: int)
    | GangSubmitted(gid: string, gang: GangRequest, now: int)
    | CancelRequested(id: string, now: int)
    | Reported(result: Result, now: int)
    | Acknowledged(id: string)
    | Ticked(pending: seq<GroupRec>, now: int)
    | WalltimeChecked(running: seq<JobRec>, now: int)
    | HandshakeChecked(expired: seq<string>, now: int)
    | RetryDue(timer: nat, now: int)
    | MemberJoined(member: Member)
    | MemberLeft(name: string, lost: seq<JobRec>, now: int)
    | RosterShuffled(roster: seq<Member>)
    | WroteBack
    | UsageDecayed

  /** What the database remembers, as tables. */
  function Stored(m: Master): Sched {
    m.sched.(jobs := m.saved.jobs, groups := m.saved.groups)
  }

  /** When an event can happen.  Reports may be delayed and repeated at will, about any
      job, also one that was started in an earlier life of the master. */
  ghost predicate Possible(m: Master, e: Event) {
    match e
    case JobSubmitted(id, req, _) =>
      FreshId(m.sched, id) && FreshId(Stored(m), id) && id !in m.deadLetters && req.need.NonNegative()
    case GangSubmitted(gid, req, _) =>
      FreshGroup(m.sched, gid, req) && FreshGroup(Stored(m), gid, req) && req.job.need.NonNegative()
    case CancelRequested(_, _) => true
    case Reported(_, _) => true
    case Acknowledged(_) => true
    case Ticked(gs, _) => ListsPending(m.sched, gs) && forall g | g in gs :: g.numNodes >= 1
    case WalltimeChecked(running, _) => Lists(m.sched, RunsAnywhere(), running)
    case HandshakeChecked(ids, now) => ListsExpired(m, ids, now)
    case RetryDue(i, now) => i < |m.timers| && m.timers[i].due <= now
    case MemberJoined(x) => x.name != "" && !Named(m.members, x.name)
    case MemberLeft(name, lost, _) => Lists(m.sched, RunsOn(name), lost)
    case RosterShuffled(roster) => Roster(roster) && forall x :: x in roster <==> x in m.members
    case WroteBack => m.sched.writes != []
    case UsageDecayed => true
  }

  /** What the event does to the master, with the guarded report. */
  ghost function Apply(cfg: Config, m: Master, e: Event): Master
    requires Possible(m, e)
  {
    match e
    case JobSubmitted(id, req, now) => SubmitJob(m, cfg, id, req, now)
    case GangSubmitted(gid, req, now) => SubmitGang(m, gid, req, now)
    case CancelRequested(id, now) => CancelJob(m, id, now)
    case Reported(result, now) => ReportGuarded(m, result, now)
    case Acknowledged(id) => Acknowledge(m, id)
    case Ticked(gs, now) => Tick(m, gs, cfg.matches, now)
    case WalltimeChecked(running, now) => WalltimeSweep(m, running, now)
    case HandshakeChecked(ids, _) => HandshakeSweep(m, ids)
    case RetryDue(i, _) => RetryFires(m, i)
    case MemberJoined(x) => m.(members := m.members + [x])
    case MemberLeft(name, lost, now) => NodeLeaves(m, name, lost, now)
    case RosterShuffled(roster) => m.(members := roster)
    case WroteBack => WriteOne(m)
    case UsageDecayed => m.(usage := Fairshare.Decayed(m.usage, Fairshare.FACTOR))
  }

  /** The invariant of placement and groups. */
  ghost predicate Static(m: Master) {
    Core(m) && Shape(m.sched) && RanksOk(m.sched)
  }

  /** A pending retry belongs to a failed single job with retries left; no job
      has two. */
  ghost predicate TimersOk(m: Master) {
    && (forall t | t in m.timers :: TimerOk(m.sched, t))
    && (forall i, j | 0 <= i < j < |m.timers| :: m.timers[i].jobId != m.timers[j].jobId)
  }

  predicate TimerOk(s: Sched, t: Timer) {
    && InState(s, t.jobId, Failed)
    && s.jobs[t.jobId].spec.groupId == ""
    && s.jobs[t.jobId].retryCount < s.jobs[t.jobId].spec.maxRetries
  }

  // ---------- the dispatch tick ----------

  lemma PendingListed(m: Master, gs: seq<GroupRec>)
    requires Shape(m.sched) && ListsPending(m.sched, gs)
    ensures AllPending(m.sched, gs)
  {
    forall g | g in gs ensures g.numNodes >= 1 && GangShaped(g) && PendingNow(m.sched, g) {
    }
  }

  lemma TickKeeps(m: Master, gs: seq<GroupRec>, matches: Matcher, now: int)
    requires Static(m) && ListsPending(m.sched, gs) && forall g | g in gs :: g.numNodes >= 1
    ensures Static(Tick(m, gs, matches, now)) && Steady(m, Tick(m, gs, matches, now))
  {
    PendingListed(m, gs);
    GangPhaseKeeps(m, gs, matches, now);
    GangPhaseSteady(m, gs, matches, now);
    var mid := GangPhase(m, gs, matches, now);
    ShapeStays(m.sched, mid.sched);
    SinglesKeep(mid, matches, now);
    SteadyTrans(m, mid, SinglePhase(mid, matches, now));
  }

  lemma SinglesKeep(m: Master, matches: Matcher, now: int)
    requires Static(m)
    ensures Static(SinglePhase(m, matches, now)) && Steady(m, SinglePhase(m, matches, now))
  {
    HeapHoldsQueued(m.sched);
    WorkConserving(m, matches, now);
    SinglePhaseOk(m, matches, now);
    SinglePhaseSteady(m, matches, now);
    ShapeStays(m.sched, SinglePhase(m, matches, now).sched);
  }

  // ---------- cancellation, enforcers, node loss ----------

  lemma CancelKeeps(m: Master, id: string, now: int)
    requires Static(m)
    ensures Static(CancelJob(m, id, now)) && Steady(m, CancelJob(m, id, now))
  {
    CancelJobCore(m, id, now);
    CancelJobOk(m, id, now, "");
    CancelJobSteady(m, id, now);
    ShapeStays(m.sched, CancelJob(m, id, now).sched);
  }

  lemma WalltimeKeeps(m: Master, running: seq<JobRec>, now: int)
    requires Static(m) && Lists(m.sched, RunsAnywhere(), running)
    ensures Static(WalltimeSweep(m, running, now)) && Steady(m, WalltimeSweep(m, running, now))
  {
    WalltimeCore(m, running, now);
    WalltimeOk(m, running, now);
    WalltimeSteady(m, running, now);
    ShapeStays(m.sched, WalltimeSweep(m, running, now).sched);
  }

  lemma LeaveKeeps(m: Master, name: string, lost: seq<JobRec>, now: int)
    requires Static(m) && Lists(m.sched, RunsOn(name), lost)
    ensures Static(NodeLeaves(m, name, lost, now)) && Steady(m, NodeLeaves(m, name, lost, now))
  {
    var gone := m.(members := Others(m.members, name));
    LeaveCore(m, name, lost, now);
    AsideSteady(m, gone);
    LoseAllOk(gone, name, lost, now);
    LoseAllSteady(gone, name, lost, now);
    SteadyTrans(m, gone, NodeLeaves(m, name, lost, now));
    ShapeStays(m.sched, NodeLeaves(m, name, lost, now).sched);
  }

  /** The master with the swept entries off the handshake list. */
  function Unwatched(m: Master, ids: seq<string>): Master {
    m.(pending := m.pending - (set id | id in ids))
  }

  lemma {:induction false} RequeueAllStops(m: Master, ids: seq<string>)
    requires Sound(m.sched)
    ensures forall id | id in ids :: !InState(RequeueAll(m, ids).sched, id, Running)
    ensures forall id | !InState(m.sched, id, Running) :: !InState(RequeueAll(m, ids).sched, id, Running)
    decreases |ids|
  {
    if ids != [] {
      RequeueAllStops(Requeue1(m, ids[0]), ids[1..]);
    }
  }

  lemma HandshakeKeeps(m: Master, ids: seq<string>)
    requires Static(m)
    ensures Static(HandshakeSweep(m, ids)) && Steady(Unwatched(m, ids), HandshakeSweep(m, ids))
    ensures forall id | id in ids :: !InState(HandshakeSweep(m, ids).sched, id, Running)
  {
    RequeueAllCore(Unwatched(m, ids), ids);
    RequeueAllOk(Unwatched(m, ids), ids);
    RequeueAllSteady(Unwatched(m, ids), ids);
    RequeueAllStops(Unwatched(m, ids), ids);
    ShapeStays(m.sched, HandshakeSweep(m, ids).sched);
  }

  // ---------- reports ----------

  /** A settled report, group completion included, apart from timer and letter. */
  lemma ReportEvolves(m: Master, result: Result, now: int)
    requires Sound(m.sched)
    ensures var m' := ReportGuarded(m, result, now);
            Steady(m, m'.(timers := m.timers, deadLetters := m.deadLetters))
  {
    var m' := ReportGuarded(m, result, now);
    if InState(m.sched, result.jobId, Running) {
      var settled := Settle(m, result, now);
      SettleSteady(m, result, now);
      SoundStays(m.sched, settled.sched);
      CompleteGroupSteady(settled, result, now);
      RetimedSteady(settled, m', m);
      SteadyTrans(m, settled.(timers := m.timers, deadLetters := m.deadLetters),
                  m'.(timers := m.timers, deadLetters := m.deadLetters));
    } else if result.jobId in m.sched.jobs {
      var judged := m.(breaker := Judged(m.breaker, result, now));
      AsideSteady(m, judged);
      CompleteGroupSteady(judged, result, now);
      SteadyTrans(m, judged, m');
    } else {
      AsideSteady(m, m);
    }
  }

  lemma RetimedSteady(a: Master, b: Master, c: Master)
    requires Steady(a, b)
    ensures Steady(a.(timers := c.timers, deadLetters := c.deadLetters), b.(timers := c.timers,
          deadLetters := c.deadLetters))
  {
  }

  lemma {:induction false} SiblingsBooks(m: Master, ids: seq<string>, spared: string, now: int)
    ensures CancelSiblings(m, ids, spared, now).timers == m.timers
    ensures CancelSiblings(m, ids, spared, now).deadLetters == m.deadLetters
    decreases |ids|
  {
    if ids != [] {
      SiblingsBooks(if ids[0] == spared then m else CancelJob(m, ids[0], now), ids[1..], spared, now);
    }
  }

  lemma CompleteGroupBooks(m: Master, r: Result, now: int)
    ensures CompleteGroup(m, r, now).timers == m.timers
    ensures CompleteGroup(m, r, now).deadLetters == m.deadLetters
  {
    if r.jobId in m.sched.jobs {
      var gid := m.sched.jobs[r.jobId].spec.groupId;
      if gid in m.sched.groups {
        SiblingsBooks(m, m.sched.groups[gid].jobIds, r.jobId, now);
      }
    }
  }

  /** A report starts at most one retry timer, due after the quadratic backoff. */
  lemma ReportTimerBook(m: Master, result: Result, now: int)
    ensures ReportGuarded(m, result, now).timers
         == if InState(m.sched, result.jobId, Running) && Retries(m.sched.jobs[result.jobId], result)
            then m.timers + [Timer(result.jobId, now + Backoff(m.sched.jobs[result.jobId].retryCount + 1))]
            else m.timers
  {
    CompleteGroupBooks(Settle(m, result, now), result, now);
    CompleteGroupBooks(m.(breaker := Judged(m.breaker, result, now)), result, now);
  }

  /** A report about an exhausted single job, or a rank, may leave a dead letter. */
  lemma ReportLetterBook(m: Master, result: Result, now: int)
    requires Sound(m.sched)
    ensures ReportGuarded(m, result, now).deadLetters
         == if InState(m.sched, result.jobId, Running) && !Retries(m.sched.jobs[result.jobId], result)
               && GivesUp(m.sched.jobs[result.jobId], result)
            then m.deadLetters[result.jobId := Failure(m.sched.jobs[result.jobId], result, now)]
            else m.deadLetters
  {
    if InState(m.sched, result.jobId, Running) && !result.success {
      var job := MarkCompleted(m.sched, result.jobId, false, result.output, result.error, now).jobs[result.jobId];
      assert job == Failure(m.sched.jobs[result.jobId], result, now);
    }
    CompleteGroupBooks(Settle(m, result, now), result, now);
    CompleteGroupBooks(m.(breaker := Judged(m.breaker, result, now)), result, now);
  }

  /** The record of a job whose failure was just reported. */
  function Failure(job: JobRec, r: Result, now: int): JobRec {
    job.(state := Failed, output := r.output, error := r.error, endTime := now)
  }

  /** A single job that just failed is FAILED after the whole report. */
  lemma FailureSticks(m: Master, result: Result, now: int)
    requires Sound(m.sched) && InState(m.sched, result.jobId, Running) && !result.success
    ensures var m' := ReportGuarded(m, result, now);
            && InState(m'.sched, result.jobId, Failed)
            && m'.sched.jobs[result.jobId].spec == m.sched.jobs[result.jobId].spec
            && m'.sched.jobs[result.jobId].retryCount == m.sched.jobs[result.jobId].retryCount
  {
    var settled := Settle(m, result, now);
    SettleSteady(m, result, now);
    SoundStays(m.sched, settled.sched);
    CompleteGroupSteady(settled, result, now);
    assert Follows(settled.sched.jobs[result.jobId], CompleteGroup(settled, result, now).sched.jobs[result.jobId]);
  }

  lemma ReportKeeps(m: Master, result: Result, now: int)
    requires Static(m)
    ensures Static(ReportGuarded(m, result, now))
  {
    ReportCore(m, result, now);
    ReportOk(m, result, now);
    ReportEvolves(m, result, now);
    ShapeStays(m.sched, ReportGuarded(m, result, now).sched);
  }

  // ---------- retries ----------

  /** The timer's job goes back to the heap, its identity unchanged. */
  lemma RetryEffect(m: Master, i: nat)
    requires i < |m.timers| && InState(m.sched, m.timers[i].jobId, Failed) && Sound(m.sched)
    ensures var m' := RetryFires(m, i);
            && m'.sched.jobs == m.sched.jobs[m.timers[i].jobId := Reset(m.sched.jobs[m.timers[i].jobId], true)]
            && m'.sched.groups == m.sched.groups
  {
  }

  lemma RetryShape(s: Sched, s': Sched, id: string, rec: JobRec)
    requires Shape(s) && RanksOk(s) && id in s.jobs && rec.spec == s.jobs[id].spec && rec.spec.groupId == ""
    requires s'.jobs == s.jobs[id := rec] && s'.groups == s.groups
    ensures Shape(s') && RanksOk(s')
  {
    forall k | k in s'.jobs ensures s'.jobs[k].spec == s.jobs[k].spec {
    }
    forall gid | gid in s'.groups ensures RanksOf(s'.jobs, s'.groups[gid]) {
      assert RanksOf(s.jobs, s.groups[gid]);
    }
    forall a, b | a in s'.jobs && b in s'.jobs ensures Alike(s'.jobs[a].spec, s'.jobs[b].spec) {
      assert Alike(s.jobs[a].spec, s.jobs[b].spec);
    }
  }

  lemma RetryKeeps(m: Master, i: nat)
    requires Static(m) && i < |m.timers| && TimerOk(m.sched, m.timers[i])
    ensures Static(RetryFires(m, i))
  {
    var id := m.timers[i].jobId;
    RetryEffect(m, i);
    RetryCore(m, i);
    RetryShape(m.sched, RetryFires(m, i).sched, id, Reset(m.sched.jobs[id], true));
  }

  // ---------- submissions ----------

  /** New jobs arrive as submitted; nobody else is touched; all is announced. */
  ghost predicate Grows(s: Sched, s': Sched) {
    && (forall id | id in s.jobs :: id in s'.jobs && s'.jobs[id] == s.jobs[id])
    && (forall id | id in s'.jobs && id !in s.jobs :: s'.jobs[id] == NewJob(s'.jobs[id].spec))
    && (forall gid | gid in s.groups :: gid in s'.groups && s'.groups[gid] == s.groups[gid])
    && Notified(s, s')
  }

  lemma JobGrows(m: Master, cfg: Config, id: string, req: JobRequest, now: int)
    requires id !in m.sched.jobs
    ensures Grows(m.sched, SubmitJob(m, cfg, id, req, now).sched)
    ensures forall k | k in SubmitJob(m, cfg, id, req, now).sched.jobs && k !in m.sched.jobs :: k == id
  {
    EnqueueNotifies(m.sched, SingleSpec(m, cfg, id, req, now));
  }

  /** A rank never retries and belongs to the group. */
  predicate NewRank(rec: JobRec, gid: string) {
    rec.spec.groupId == gid && rec.spec.maxRetries == 0
  }

  /** Admission adds ranks of the group only. */
  lemma AdmissionGrows(s: Sched, gid: string, req: GangRequest, now: int)
    requires FreshGroup(s, gid, req)
    ensures Grows(s, AdmitRanks(s, gid, req, 0, now))
    ensures var s' := AdmitRanks(s, gid, req, 0, now);
            forall id | id in s'.jobs && id !in s.jobs :: NewRank(s'.jobs[id], gid)
    ensures AdmitRanks(s, gid, req, 0, now).groups == s.groups
  {
    var s' := AdmitRanks(s, gid, req, 0, now);
    FreshRanks(s, gid, req);
    AdmissionAdds(s, gid, req, 0, now);
    AdmissionNotifies(s, gid, req, 0, now);
    forall id | id in s'.jobs && id !in s.jobs
      ensures s'.jobs[id] == NewJob(s'.jobs[id].spec) && NewRank(s'.jobs[id], gid)
    {
      var r: nat :| r < Ranks(req) && id == RankId(gid, r) && IsRank(s'.jobs[id], gid, req, now, r);
    }
  }

  lemma RegisterGrows(s: Sched, s': Sched, g: GroupRec)
    requires Grows(s, s') && s'.groups == s.groups && g.id !in s.groups
    ensures Grows(s, PutGroup(s', g))
  {
    assert GroupWrite(g.id) in PutGroup(s', g).writes;
  }

  lemma GangGrows(m: Master, gid: string, req: GangRequest, now: int)
    requires FreshGroup(m.sched, gid, req)
    ensures var s' := SubmitGang(m, gid, req, now).sched;
            && Grows(m.sched, s')
            && (forall id | id in s'.jobs && id !in m.sched.jobs :: NewRank(s'.jobs[id], gid))
  {
    AdmissionGrows(m.sched, gid, req, now);
    RegisterGrows(m.sched, AdmitRanks(m.sched, gid, req, 0, now), GangRec(gid, req, now));
  }

  // ---------- the environment ----------

  lemma JoinCore(m: Master, x: Member)
    requires Core(m) && x.name != "" && !Named(m.members, x.name)
    ensures Core(m.(members := m.members + [x]))
  {
    var more := m.members + [x];
    forall id | id in m.sched.jobs ensures WellPlaced(m.sched.jobs[id], more) {
      var rec := m.sched.jobs[id];
      assert WellPlaced(rec, m.members);
      if rec.state == Running {
        var y :| y in m.members && y.name == rec.worker;
        assert y in more;
      }
    }
    forall i, j | 0 <= i < j < |more| ensures more[i].name != more[j].name {
      assert more[i] in m.members;
    }
    forall id | id in m.sched.jobs
      ensures !(m.sched.jobs[id].state == Running && m.sched.jobs[id].worker == x.name)
    {
      assert WellPlaced(m.sched.jobs[id], m.members);
    }
    NoJobsNoLoad(m.sched.jobs, x.name);
    assert Held(m.ledger, x.name) == NOTHING;
  }

  lemma ShuffleCore(m: Master, roster: seq<Member>)
    requires Core(m) && Roster(roster) && forall x :: x in roster <==> x in m.members
    ensures Core(m.(members := roster))
  {
    forall id | id in m.sched.jobs ensures WellPlaced(m.sched.jobs[id], roster) {
      assert WellPlaced(m.sched.jobs[id], m.members);
    }
  }

  // ---------- every event ----------

  /** What an event amounts to. */
  ghost predicate Effect(m: Master, e: Event, m': Master) {
    match e
    case JobSubmitted(id, _, _) =>
      && m' == m.(sched := m'.sched) && Grows(m.sched, m'.sched)
      && (forall k | k in m'.sched.jobs && k !in m.sched.jobs :: k == id && id !in m.deadLetters)
    case GangSubmitted(gid, _, _) =>
      && m' == m.(sched := m'.sched) && Grows(m.sched, m'.sched)
      && (forall k | k in m'.sched.jobs && k !in m.sched.jobs :: NewRank(m'.sched.jobs[k], gid))
    case Reported(result, now) =>
      && Steady(m, m'.(timers := m.timers, deadLetters := m.deadLetters))
      && Booked(m, result, now, m')
    case Acknowledged(id) => m' == Acknowledge(m, id)
    case HandshakeChecked(ids, _) =>
      Steady(Unwatched(m, ids), m') && forall id | id in ids :: !InState(m'.sched, id, Running)
    case RetryDue(i, _) => i < |m.timers| && m' == RetryFires(m, i)
    case WroteBack => m.sched.writes != [] && m' == WriteOne(m)
    case _ => Steady(m, m')
  }

  /** What a report does to its job, to the timers and to the dead letters. */
  ghost predicate Booked(m: Master, result: Result, now: int, m': Master) {
    if !InState(m.sched, result.jobId, Running) || result.success
    then m'.timers == m.timers && m'.deadLetters == m.deadLetters
    else
      var job := m.sched.jobs[result.jobId];
      && InState(m'.sched, result.jobId, Failed)
      && m'.sched.jobs[result.jobId].spec == job.spec
      && m'.sched.jobs[result.jobId].retryCount == job.retryCount
      && m'.timers == (if Retries(job, result)
                       then m.timers + [Timer(result.jobId, now + Backoff(job.retryCount + 1))] else m.timers)
      && m'.deadLetters == (if !Retries(job, result) && GivesUp(job, result)
                            then m.deadLetters[result.jobId := Failure(job, result, now)] else m.deadLetters)
  }

  lemma ReportEffect(m: Master, result: Result, now: int)
    requires Sound(m.sched)
    ensures Effect(m, Reported(result, now), ReportGuarded(m, result, now))
  {
    hide ReportGuarded, Sound, Steady;
    ReportEvolves(m, result, now);
    ReportTimerBook(m, result, now);
    ReportLetterBook(m, result, now);
    if InState(m.sched, result.jobId, Running) && !result.success {
      FailureSticks(m, result, now);
    }
  }

  /** The event keeps the invariant and has its effect. */
  ghost predicate Kept(cfg: Config, m: Master, e: Event)
    requires Possible(m, e)
  {
    Static(Apply(cfg, m, e)) && Effect(m, e, Apply(cfg, m, e))
  }

  lemma SubmissionKept(cfg: Config, m: Master, e: Event)
    requires Static(m) && Possible(m, e) && (e.JobSubmitted? || e.GangSubmitted?)
    ensures Kept(cfg, m, e)
  {
    match e {
      case JobSubmitted(id, req, now) =>
        SubmitJobKeeps(m, cfg, id, req, now);
        JobGrows(m, cfg, id, req, now);
      case GangSubmitted(gid, req, now) =>
        SubmitGangKeeps(m, gid, req, now);
        GangGrows(m, gid, req, now);
    }
  }

  lemma ReportKept(cfg: Config, m: Master, e: Event)
    requires Static(m) && e.Reported?
    ensures Kept(cfg, m, e)
  {
    ReportKeeps(m, e.result, e.now);
    ReportEffect(m, e.result, e.now);
  }

  lemma SweepKept(cfg: Config, m: Master, e: Event)
    requires Static(m) && Possible(m, e)
    requires e.Ticked? || e.WalltimeChecked? || e.HandshakeChecked? || e.MemberLeft?
    ensures Kept(cfg, m, e)
  {
    hide Static, Steady;
    match e {
      case Ticked(gs, now) => TickKeeps(m, gs, cfg.matches, now);
      case WalltimeChecked(running, now) => WalltimeKeeps(m, running, now);
      case HandshakeChecked(ids, _) => HandshakeKeeps(m, ids);
      case MemberLeft(name, lost, now) => LeaveKeeps(m, name, lost, now);
    }
  }

  lemma RequestKept(cfg: Config, m: Master, e: Event)
    requires Static(m) && TimersOk(m) && Possible(m, e)
    requires e.CancelRequested? || e.Acknowledged? || e.RetryDue? || e.WroteBack?
    ensures Kept(cfg, m, e)
  {
    match e {
      case CancelRequested(id, now) => CancelKeeps(m, id, now);
      case Acknowledged(id) => AcknowledgeKeeps(m, id);
      case RetryDue(i, _) => RetryKeeps(m, i);
      case WroteBack => WriteKeeps(m);
    }
  }

  /** Every event keeps the invariant and has the effect stated above. */
  lemma EventKeeps(cfg: Config, m: Master, e: Event)
    requires Static(m) && TimersOk(m) && Possible(m, e)
    ensures Static(Apply(cfg, m, e))
    ensures Effect(m, e, Apply(cfg, m, e))
  {
    hide Static, TimersOk, Possible, Apply, Effect;
    if e.JobSubmitted? || e.GangSubmitted? {
      SubmissionKept(cfg, m, e);
    } else if e.Reported? {
      ReportKept(cfg, m, e);
    } else if e.Ticked? || e.WalltimeChecked? || e.HandshakeChecked? || e.MemberLeft? {
      SweepKept(cfg, m, e);
    } else if e.CancelRequested? || e.Acknowledged? || e.RetryDue? || e.WroteBack? {
      RequestKept(cfg, m, e);
    } else {
      EnvironmentKeeps(cfg, m, e);
    }
  }

  lemma AcknowledgeKeeps(m: Master, id: string)
    requires Static(m)
    ensures Static(Acknowledge(m, id))
  {
  }

  lemma WriteKeeps(m: Master)
    requires Static(m) && m.sched.writes != []
    ensures Static(WriteOne(m))
  {
  }

  lemma EnvironmentKeeps(cfg: Config, m: Master, e: Event)
    requires Static(m) && Possible(m, e)
    requires e.MemberJoined? || e.RosterShuffled? || e.UsageDecayed?
    ensures Kept(cfg, m, e)
  {
    match e {
      case MemberJoined(x) => JoinCore(m, x);
      case RosterShuffled(roster) => ShuffleCore(m, roster);
      case UsageDecayed =>
    }
    AsideSteady(m, Apply(cfg, m, e));
  }
}
