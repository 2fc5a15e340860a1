/** The life of a distributed group over runs: PENDING to RUNNING or FAILED, and
    RUNNING to COMPLETED or FAILED, but for one kind of stray report. */
module GroupLifecycle {
  import opened Types
  import opened Scheduling
  import CircuitBreaker
  import opened MasterSteps
  import opened Continuity
  import opened ContinuitySteps
  import opened Groups
  import opened Submission
  import opened Events
  import opened Runs

  predicate Edge(st: GroupState, st': GroupState) {
    || st' == st
    || (st == GroupPending && (st' == GroupRunning || st' == GroupFailed))
    || (st == GroupRunning && (st' == GroupCompleted || st' == GroupFailed))
  }

  /** No group is completed by the step. */
  ghost predicate NoneCompletes(s: Sched, s': Sched) {
    forall gid | gid in s'.groups && s'.groups[gid].state == GroupCompleted ::
      gid in s.groups && s.groups[gid].state == GroupCompleted
  }

  lemma {:induction false} WalltimeGroups(m: Master, recs: seq<JobRec>, now: int)
    ensures WalltimeSweep(m, recs, now).sched.groups == m.sched.groups
    decreases |recs|
  {
    if recs != [] {
      WalltimeGroups(Kill1(m, recs[0], now), recs[1..], now);
    }
  }

  lemma {:induction false} RequeueGroups(m: Master, ids: seq<string>)
    ensures RequeueAll(m, ids).sched.groups == m.sched.groups
    decreases |ids|
  {
    if ids != [] {
      RequeueGroups(Requeue1(m, ids[0]), ids[1..]);
    }
  }

  lemma Lose1Groups(m: Master, node: string, rec: JobRec, now: int)
    requires GroupsNamed(m.sched)
    ensures NoneCompletes(m.sched, Lose1(m, node, rec, now).sched)
    ensures GroupsNamed(Lose1(m, node, rec, now).sched)
  {
  }

  lemma {:induction false} LoseGroups(m: Master, node: string, recs: seq<JobRec>, now: int)
    requires GroupsNamed(m.sched)
    ensures NoneCompletes(m.sched, LoseAll(m, node, recs, now).sched)
    decreases |recs|
  {
    if recs != [] {
      Lose1Groups(m, node, recs[0], now);
      LoseGroups(Lose1(m, node, recs[0], now), node, recs[1..], now);
    }
  }

  lemma {:induction false} GangPhaseGroups(m: Master, gs: seq<GroupRec>, matches: Matcher, now: int)
    requires (forall g | g in gs :: g.numNodes >= 1) && AllPending(m.sched, gs) && Sound(m.sched)
    ensures NoneCompletes(m.sched, GangPhase(m, gs, matches, now).sched)
    decreases |gs|
  {
    if gs != [] {
      assert gs[0] in gs;
      var next := GangTick(m, gs[0], matches, now);
      GangTickGroups(m, gs[0], matches, now);
      GangTickSteady(m, gs[0], matches, now);
      SoundStays(m.sched, next.sched);
      AllPendingTail(m, gs, matches, now);
      GangPhaseGroups(next, gs[1..], matches, now);
    }
  }

  lemma {:induction false} FillGroups(m: Master, members: seq<Member>, matches: Matcher, now: int)
    ensures FillPhase(m, members, matches, now).sched.groups == m.sched.groups
    decreases |members|
  {
    if members != [] {
      var x := members[0];
      var asked := if x.hasMeta then m.(breaker := CircuitBreaker.Queried(m.breaker, x.name, now)) else m;
      FillGroups(asked, members[1..], matches, now);
    }
  }

  lemma SingleGroups(m: Master, matches: Matcher, now: int)
    ensures SinglePhase(m, matches, now).sched.groups == m.sched.groups
  {
    var top := Top(m.sched);
    if top.Some? {
      var fit := FirstFit(m.breaker, m.ledger, matches, {}, top.value.spec, m.members, now);
      FillGroups(m.(breaker := fit.breaker), m.members, matches, now);
    }
  }

  lemma TickGroups(m: Master, gs: seq<GroupRec>, matches: Matcher, now: int)
    requires Static(m) && ListsPending(m.sched, gs) && forall g | g in gs :: g.numNodes >= 1
    ensures NoneCompletes(m.sched, Tick(m, gs, matches, now).sched)
  {
    PendingListed(m, gs);
    GangPhaseGroups(m, gs, matches, now);
    SingleGroups(GangPhase(m, gs, matches, now), matches, now);
  }

  lemma SubmittedGroups(m: Master, gid: string, req: GangRequest, now: int)
    requires FreshGroup(m.sched, gid, req)
    ensures NoneCompletes(m.sched, SubmitGang(m, gid, req, now).sched)
  {
    AdmissionGrows(m.sched, gid, req, now);
  }

  lemma RetryGroups(m: Master, i: nat)
    requires Sound(m.sched) && TimersOk(m) && i < |m.timers|
    ensures NoneCompletes(m.sched, RetryFires(m, i).sched)
  {
    assert TimerOk(m.sched, m.timers[i]);
    RetryEffect(m, i);
  }

  lemma SweepsComplete(cfg: Config, m: Master, e: Event)
    requires Static(m) && Possible(m, e)
    requires e.Ticked? || e.WalltimeChecked? || e.HandshakeChecked? || e.MemberLeft?
    ensures NoneCompletes(m.sched, Apply(cfg, m, e).sched)
  {
    match e {
      case Ticked(gs, now) => TickGroups(m, gs, cfg.matches, now);
      case WalltimeChecked(running, now) => WalltimeGroups(m, running, now);
      case HandshakeChecked(ids, _) => RequeueGroups(Unwatched(m, ids), ids);
      case MemberLeft(name, lost, now) => LoseGroups(m.(members := Others(m.members, name)), name, lost, now);
    }
  }

  lemma CancelGroups(m: Master, id: string, now: int)
    ensures CancelJob(m, id, now).sched.groups == m.sched.groups
  {
  }

  lemma RequestsComplete(cfg: Config, m: Master, e: Event)
    requires Static(m) && TimersOk(m) && Possible(m, e)
    requires e.JobSubmitted? || e.GangSubmitted? || e.CancelRequested? || e.RetryDue?
    ensures NoneCompletes(m.sched, Apply(cfg, m, e).sched)
  {
    assert Sound(m.sched);
    hide Static, Shape, Sound, TimersOk, CancelJob, SubmitGang, RetryFires;
    match e {
      case RetryDue(i, _) => RetryGroups(m, i);
      case GangSubmitted(gid, req, now) => SubmittedGroups(m, gid, req, now);
      case CancelRequested(id, now) => CancelGroups(m, id, now);
      case JobSubmitted(_, _, _) =>
    }
  }

  /** Only a report completes a group. */
  lemma OnlyReportsComplete(cfg: Config, m: Master, e: Event)
    requires Static(m) && TimersOk(m) && Possible(m, e) && !e.Reported?
    ensures NoneCompletes(m.sched, Apply(cfg, m, e).sched)
  {
    if e.Ticked? || e.WalltimeChecked? || e.HandshakeChecked? || e.MemberLeft? {
      SweepsComplete(cfg, m, e);
    } else if e.JobSubmitted? || e.GangSubmitted? || e.CancelRequested? || e.RetryDue? {
      RequestsComplete(cfg, m, e);
    }
  }

  lemma {:induction false} SiblingsGroups(m: Master, ids: seq<string>, spared: string, now: int)
    ensures CancelSiblings(m, ids, spared, now).sched.groups == m.sched.groups
    decreases |ids|
  {
    if ids != [] {
      SiblingsGroups(if ids[0] == spared then m else CancelJob(m, ids[0], now), ids[1..], spared, now);
    }
  }

  /** A report moves no group but its job's. */
  lemma CompletionMovesOne(m: Master, gid: string, jobId: string, success: bool, now: int, other: string)
    requires GroupsNamed(m.sched) && other in m.sched.groups && other != gid
    ensures other in GroupReport(m, gid, jobId, success, now).sched.groups
    ensures GroupReport(m, gid, jobId, success, now).sched.groups[other] == m.sched.groups[other]
  {
    if gid in m.sched.groups {
      SiblingsGroups(m, m.sched.groups[gid].jobIds, jobId, now);
    }
  }

  lemma CompleteGroupMovesOne(m: Master, r: Result, now: int, gid: string)
    requires GroupsNamed(m.sched) && gid in m.sched.groups && r.jobId in m.sched.jobs
    requires m.sched.jobs[r.jobId].spec.groupId == "" || m.sched.jobs[r.jobId].spec.groupId != gid
    ensures gid in CompleteGroup(m, r, now).sched.groups
    ensures CompleteGroup(m, r, now).sched.groups[gid] == m.sched.groups[gid]
  {
    if m.sched.jobs[r.jobId].spec.groupId != "" {
      CompletionMovesOne(m, m.sched.jobs[r.jobId].spec.groupId, r.jobId, r.success, now, gid);
    }
  }

  lemma SettleMovesNone(m: Master, r: Result, now: int)
    requires Sound(m.sched) && r.jobId in m.sched.jobs
    ensures Settle(m, r, now).sched.groups == m.sched.groups
    ensures r.jobId in Settle(m, r, now).sched.jobs
    ensures Settle(m, r, now).sched.jobs[r.jobId].spec == m.sched.jobs[r.jobId].spec
  {
  }

  predicate RankOfGroup(s: Sched, id: string, gid: string) {
    gid != "" && id in s.jobs && s.jobs[id].spec.groupId == gid
  }

  /** A report leaves the PENDING groups of other jobs alone. */
  lemma ReportMovesOne(m: Master, result: Result, now: int, gid: string)
    requires Sound(m.sched) && gid in m.sched.groups && gid != "" && !RankOfGroup(m.sched, result.jobId, gid)
    ensures gid in ReportGuarded(m, result, now).sched.groups
    ensures ReportGuarded(m, result, now).sched.groups[gid] == m.sched.groups[gid]
  {
    if InState(m.sched, result.jobId, Running) {
      SettleMovesNone(m, result, now);
      CompleteGroupMovesOne(Settle(m, result, now), result, now, gid);
    } else if result.jobId in m.sched.jobs {
      CompleteGroupMovesOne(m.(breaker := Judged(m.breaker, result, now)), result, now, gid);
    }
  }

  /** A stray report: a success for a rank of a PENDING group, none of whose ranks
      waits any more, so all of them were cancelled. */
  predicate Stray(m: Master, e: Event, gid: string) {
    && e.Reported? && e.result.success && RankOfGroup(m.sched, e.result.jobId, gid)
    && gid in m.sched.groups && m.sched.groups[gid].state == GroupPending
    && AllDone(m.sched, m.sched.groups[gid].jobIds)
  }

  /** What a report about one of its ranks does to a PENDING group. */
  lemma ReportMovesPending(m: Master, result: Result, now: int, gid: string)
    requires Sound(m.sched) && RanksOk(m.sched) && RankOfGroup(m.sched, result.jobId, gid)
    requires gid in m.sched.groups && m.sched.groups[gid].state == GroupPending
    ensures var s' := ReportGuarded(m, result, now).sched;
            && gid in s'.groups
            && s'.groups[gid].state == (if Stray(m, Reported(result, now), gid) then GroupCompleted
                                        else if result.success then GroupPending else GroupFailed)
  {
    assert RankOk(m.sched.jobs[result.jobId], m.sched.groups);
    var judged := m.(breaker := Judged(m.breaker, result, now));
    SiblingsGroups(judged, m.sched.groups[gid].jobIds, result.jobId, now);
  }

  /** An event that completes a PENDING group is a stray report. */
  lemma PendingLeaves(cfg: Config, m: Master, e: Event, gid: string)
    requires Static(m) && TimersOk(m) && Possible(m, e) && Effect(m, e, Apply(cfg, m, e))
    requires gid in m.sched.groups && m.sched.groups[gid].state == GroupPending
    ensures gid in Apply(cfg, m, e).sched.groups
    ensures Apply(cfg, m, e).sched.groups[gid].state == GroupCompleted <==> Stray(m, e, gid)
  {
    assert Sound(m.sched) && gid != "";
    EffectKeeps(m, e, Apply(cfg, m, e));
    hide Static, Sound, TimersOk, Effect, ReportGuarded;
    if !e.Reported? {
      OnlyReportsComplete(cfg, m, e);
    } else if RankOfGroup(m.sched, e.result.jobId, gid) {
      ReportMovesPending(m, e.result, e.now, gid);
    } else {
      ReportMovesOne(m, e.result, e.now, gid);
    }
  }

  /** Along every run a group is never forgotten and moves along the edges, with one
      exception: a stray report completes its group without ever running it. */
  lemma GroupsMoveForward(cfg: Config, es: seq<Event>, rs: seq<Run>, i: nat, gid: string)
    requires IsRun(cfg, es, rs) && i < |es| && gid in rs[i].m.sched.groups
    ensures gid in rs[i + 1].m.sched.groups
    ensures var st, st' := rs[i].m.sched.groups[gid].state, rs[i + 1].m.sched.groups[gid].state;
            if Stray(rs[i].m, es[i], gid) then st == GroupPending && st' == GroupCompleted else Edge(st, st')
  {
    RunStep(cfg, es, rs, i);
    assert Steps(cfg, rs[i], es[i], rs[i + 1]);
    EffectKeeps(rs[i].m, es[i], rs[i + 1].m);
    hide Static, TimersOk, Effect, Apply, Possible;
    assert Moves(rs[i].m.sched.groups[gid], rs[i + 1].m.sched.groups[gid]);
    if rs[i].m.sched.groups[gid].state == GroupPending {
      PendingLeaves(cfg, rs[i].m, es[i], gid);
    }
  }

  /** In every state of every run: a PENDING group has no RUNNING rank, so its
      timeout owes no release; the ranks of a COMPLETED group are all COMPLETED or
      CANCELLED; a RUNNING group has no FAILED rank. */
  lemma RanksMatchGroup(cfg: Config, es: seq<Event>, rs: seq<Run>, i: nat, gid: string, id: string)
    requires IsRun(cfg, es, rs) && i < |rs|
    requires gid in rs[i].m.sched.groups && id in rs[i].m.sched.groups[gid].jobIds && id in rs[i].m.sched.jobs
    ensures var g := rs[i].m.sched.groups[gid];
            var st := rs[i].m.sched.jobs[id].state;
            && (g.state == GroupPending ==> st == Queued || st == Cancelled)
            && (g.state == GroupCompleted ==> st == Completed || st == Cancelled)
            && (g.state == GroupRunning ==> st != Failed)
  {
    Reachable(cfg, es, rs, i);
    RankBelongs(rs[i].m.sched, gid, id);
  }

  lemma RankBelongs(s: Sched, gid: string, id: string)
    requires Shape(s) && RanksOk(s)
    requires gid in s.groups && id in s.groups[gid].jobIds && id in s.jobs
    ensures s.jobs[id].spec.groupId == gid && gid != "" && RankOk(s.jobs[id], s.groups)
  {
    assert RanksOf(s.jobs, s.groups[gid]);
    var k :| 0 <= k < |s.groups[gid].jobIds| && s.groups[gid].jobIds[k] == id;
  }

  /** Not waiting and not running. */
  predicate Stopped(s: Sched, id: string) {
    !InState(s, id, Queued) && !InState(s, id, Running)
  }

  lemma CancelStops(m: Master, id: string, now: int, k: string)
    requires Sound(m.sched) && (k == id || Stopped(m.sched, k))
    ensures Stopped(CancelJob(m, id, now).sched, k)
  {
  }

  lemma {:induction false} SiblingsStop(m: Master, ids: seq<string>, spared: string, now: int, k: string)
    requires Sound(m.sched) && ((k in ids && k != spared) || Stopped(m.sched, k))
    ensures Stopped(CancelSiblings(m, ids, spared, now).sched, k)
    decreases |ids|
  {
    if ids != [] {
      var next := if ids[0] == spared then m else CancelJob(m, ids[0], now);
      if ids[0] != spared && (k == ids[0] || Stopped(m.sched, k)) {
        CancelStops(m, ids[0], now, k);
      }
      CancelJobSteady(m, ids[0], now);
      SoundStays(m.sched, CancelJob(m, ids[0], now).sched);
      SiblingsStop(next, ids[1..], spared, now, k);
    }
  }

  /** One rank failure stops the whole gang: after the report no rank of the group
      waits or runs, and the group is FAILED. */
  lemma RankFailureStopsGang(m: Master, r: Result, now: int, k: string)
    requires Sound(m.sched) && InState(m.sched, r.jobId, Running) && !r.success
    requires var gid := m.sched.jobs[r.jobId].spec.groupId;
             && gid != "" && gid in m.sched.groups && k in m.sched.groups[gid].jobIds
             && (m.sched.groups[gid].state == GroupPending || m.sched.groups[gid].state == GroupRunning)
    ensures var gid := m.sched.jobs[r.jobId].spec.groupId;
            var s' := ReportAsWritten(m, r, now).sched;
            Stopped(s', k) && gid in s'.groups && s'.groups[gid].state == GroupFailed
  {
    var settled := Settle(m, r, now);
    var gid := m.sched.jobs[r.jobId].spec.groupId;
    SettleMovesNone(m, r, now);
    SettleSteady(m, r, now);
    SoundStays(m.sched, settled.sched);
    assert Stopped(settled.sched, r.jobId);
    SiblingsStop(settled, m.sched.groups[gid].jobIds, r.jobId, now, k);
    SiblingsGroups(settled, m.sched.groups[gid].jobIds, r.jobId, now);
  }

  /** A rank's success completes the running group exactly when no other rank still
      waits or runs. */
  lemma LastRankCompletesGang(m: Master, r: Result, now: int)
    requires Sound(m.sched) && InState(m.sched, r.jobId, Running) && r.success
    requires var gid := m.sched.jobs[r.jobId].spec.groupId;
             gid != "" && gid in m.sched.groups && m.sched.groups[gid].state == GroupRunning
    ensures var gid := m.sched.jobs[r.jobId].spec.groupId;
            var s' := ReportAsWritten(m, r, now).sched;
            && gid in s'.groups
            && s'.groups[gid].state
               == if forall k | k in m.sched.groups[gid].jobIds && k != r.jobId :: Stopped(m.sched, k)
                  then GroupCompleted else GroupRunning
  {
    SettleMovesNone(m, r, now);
    SettleStops(m, r, now);
  }

  lemma {:induction false} RanksStop(s: Sched, ids: seq<string>, now: int, k: string)
    requires (forall id | id in s.jobs :: s.jobs[id].spec.id == id) && (k in ids || Stopped(s, k))
    ensures Stopped(CancelRanks(s, ids, now), k)
    ensures CancelRanks(s, ids, now).groups == s.groups
    decreases |ids|
  {
    if ids != [] {
      RanksStop(Cancel(s, ids[0], now), ids[1..], now, k);
    }
  }

  /** A gang that could not start for five minutes is given up as a whole. */
  lemma TimeoutStopsGang(m: Master, g: GroupRec, matches: Matcher, now: int, k: string)
    requires Sound(m.sched) && GangShaped(g) && PendingNow(m.sched, g) && k in g.jobIds
    requires g.createdAt != 0 && now - g.createdAt > 300_000_000_000
    ensures var s' := GangTick(m, g, matches, now).sched;
            Stopped(s', k) && g.id in s'.groups && s'.groups[g.id] == g.(state := GroupFailed)
  {
    RanksStop(m.sched, g.jobIds, now, k);
  }

  /** The same for the code as written: a success reported for a rank of a PENDING
      group, whatever the rank's state, completes the group exactly when no other rank
      waits or runs; the group then skips RUNNING. */
  lemma StrayReportCompletes(m: Master, r: Result, now: int)
    requires Sound(m.sched) && r.jobId in m.sched.jobs && r.success
    requires var gid := m.sched.jobs[r.jobId].spec.groupId;
             gid != "" && gid in m.sched.groups && m.sched.groups[gid].state == GroupPending
    ensures var gid := m.sched.jobs[r.jobId].spec.groupId;
            var s' := ReportAsWritten(m, r, now).sched;
            && gid in s'.groups
            && (s'.groups[gid].state == GroupCompleted
                <==> forall k | k in m.sched.groups[gid].jobIds && k != r.jobId :: Stopped(m.sched, k))
  {
    SettleMovesNone(m, r, now);
    SettleStops(m, r, now);
  }

  /** After its report, whatever it was, a job neither waits nor runs. */
  lemma SettleStops(m: Master, r: Result, now: int)
    requires Sound(m.sched) && r.jobId in m.sched.jobs
    ensures forall k :: Stopped(Settle(m, r, now).sched, k) <==> k == r.jobId || Stopped(m.sched, k)
  {
  }
}
