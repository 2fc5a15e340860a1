/** Distributed groups: how ranks and their group's state constrain each other. */
module Groups {
  import opened Types
  import opened Scheduling
  import opened MasterSteps
  import opened Placement
  import opened CoreSteps
  import opened GangScheduling
  import opened Continuity
  import opened ContinuitySteps

  type GroupMap = map<string, GroupRec>

  // ---------- what never changes ----------

  /** A group's rank ids belong to it, and carry its rank and world size. */
  ghost predicate RanksOf(jobs: Jobs, g: GroupRec) {
    forall i | 0 <= i < |g.jobIds| && g.jobIds[i] in jobs ::
      var spec := jobs[g.jobIds[i]].spec;
      && spec.groupId == g.id
      && "RANK" in spec.env && spec.env["RANK"] == Itoa(i)
      && "WORLD_SIZE" in spec.env && spec.env["WORLD_SIZE"] == Itoa(|g.jobIds|)
  }

  /** A rank of a registered group is in the group's list. */
  predicate Enrolled(spec: JobSpec, groups: GroupMap) {
    spec.groupId != "" && spec.groupId in groups ==> spec.id in groups[spec.groupId].jobIds
  }

  /** All ranks of a group ask for the same thing. */
  predicate Alike(a: JobSpec, b: JobSpec) {
    a.groupId != "" && a.groupId == b.groupId ==> a.need == b.need && a.requirement == b.requirement
  }

  ghost predicate Shape(s: Sched) {
    && Sound(s)
    && (forall gid | gid in s.groups :: gid != "" && GangShaped(s.groups[gid]) && RanksOf(s.jobs, s.groups[gid]))
    && (forall id | id in s.jobs :: Enrolled(s.jobs[id].spec, s.groups))
    && (forall a, b | a in s.jobs && b in s.jobs :: Alike(s.jobs[a].spec, s.jobs[b].spec))
  }

  lemma ShapeStays(s: Sched, s': Sched)
    requires Shape(s) && Evolves(s, s')
    ensures Shape(s')
  {
    SoundStays(s, s');
    forall id | id in s'.jobs ensures s'.jobs[id].spec == s.jobs[id].spec {
      assert Follows(s.jobs[id], s'.jobs[id]);
    }
    forall gid | gid in s'.groups
      ensures gid != "" && GangShaped(s'.groups[gid]) && RanksOf(s'.jobs, s'.groups[gid])
    {
      assert Moves(s.groups[gid], s'.groups[gid]);
    }
    forall id | id in s'.jobs ensures Enrolled(s'.jobs[id].spec, s'.groups) {
      assert Enrolled(s.jobs[id].spec, s.groups);
      var gid := s.jobs[id].spec.groupId;
      assert gid in s.groups ==> Moves(s.groups[gid], s'.groups[gid]);
    }
    forall a, b | a in s'.jobs && b in s'.jobs ensures Alike(s'.jobs[a].spec, s'.jobs[b].spec) {
      assert Alike(s.jobs[a].spec, s.jobs[b].spec);
    }
  }

  // ---------- group state and rank states ----------

  predicate Idle(rec: JobRec) {
    rec.state == Queued || rec.state == Cancelled
  }

  /** A PENDING or unregistered group has idle ranks only; a RUNNING group has no
      FAILED rank; a COMPLETED group has only COMPLETED or CANCELLED ranks. */
  predicate RankOk(rec: JobRec, groups: GroupMap) {
    var gid := rec.spec.groupId;
    if gid == "" then true
    else if gid !in groups then Idle(rec)
    else
      match groups[gid].state
      case GroupPending => Idle(rec)
      case GroupRunning => rec.state != Failed
      case GroupCompleted => rec.state == Completed || rec.state == Cancelled
      case GroupFailed => true
  }

  ghost predicate RanksOk(s: Sched) {
    forall id | id in s.jobs :: RankOk(s.jobs[id], s.groups)
  }

  /** RanksOk for all jobs outside one group. */
  ghost predicate OthersOk(s: Sched, gid: string) {
    forall id | id in s.jobs && s.jobs[id].spec.groupId != gid :: RankOk(s.jobs[id], s.groups)
  }

  lemma CancelledIsOk(rec: JobRec, groups: GroupMap, now: int)
    requires rec.state == Queued || rec.state == Running
    ensures RankOk(rec.(state := Cancelled, endTime := now), groups)
  {
  }

  lemma CancelOk(s: Sched, id: string, now: int, gid: string)
    requires Sound(s)
    ensures RanksOk(s) ==> RanksOk(Cancel(s, id, now))
    ensures OthersOk(s, gid) ==> OthersOk(Cancel(s, id, now), gid)
    ensures Cancel(s, id, now).groups == s.groups
  {
    if Cancellable(s, id) {
      CancelledIsOk(s.jobs[id], s.groups, now);
    }
  }

  lemma CancelJobOk(m: Master, id: string, now: int, gid: string)
    requires Sound(m.sched)
    ensures RanksOk(m.sched) ==> RanksOk(CancelJob(m, id, now).sched)
    ensures OthersOk(m.sched, gid) ==> OthersOk(CancelJob(m, id, now).sched, gid)
  {
    CancelOk(m.sched, id, now, gid);
  }

  lemma {:induction false} CancelSiblingsOk(m: Master, ids: seq<string>, spared: string, now: int, gid: string)
    requires Sound(m.sched) && OthersOk(m.sched, gid)
    ensures OthersOk(CancelSiblings(m, ids, spared, now).sched, gid)
    decreases |ids|
  {
    if ids != [] {
      var next := if ids[0] == spared then m else CancelJob(m, ids[0], now);
      CancelJobOk(m, ids[0], now, gid);
      CancelJobSteady(m, ids[0], now);
      if ids[0] != spared {
        SoundStays(m.sched, next.sched);
      }
      CancelSiblingsOk(next, ids[1..], spared, now, gid);
    }
  }

  lemma {:induction false} CancelRanksOk(m: Master, ids: seq<string>, now: int)
    requires Sound(m.sched) && RanksOk(m.sched)
    ensures RanksOk(CancelRanks(m.sched, ids, now))
    decreases |ids|
  {
    if ids != [] {
      var next := m.(sched := Cancel(m.sched, ids[0], now));
      CancelOk(m.sched, ids[0], now, "");
      CancelSteady(m, next, ids[0], now);
      SoundStays(m.sched, next.sched);
      CancelRanksOk(next, ids[1..], now);
    }
  }

  /** A group may be declared FAILED whatever its ranks do. */
  lemma FailGroupOk(s: Sched, gid: string)
    requires GroupsNamed(s) && OthersOk(s, gid) && gid in s.groups
    ensures RanksOk(SetGroupState(s, gid, GroupFailed))
  {
    var s' := SetGroupState(s, gid, GroupFailed);
    forall id | id in s'.jobs ensures RankOk(s'.jobs[id], s'.groups) {
    }
  }

  /** A group is COMPLETED only when no rank is queued, running or failed. */
  lemma CompleteGroupOk(s: Sched, gid: string)
    requires Shape(s) && RanksOk(s) && gid in s.groups && s.groups[gid].state == GroupRunning
    requires AllDone(s, s.groups[gid].jobIds)
    ensures RanksOk(SetGroupState(s, gid, GroupCompleted))
  {
    var s' := SetGroupState(s, gid, GroupCompleted);
    forall id | id in s'.jobs ensures RankOk(s'.jobs[id], s'.groups) {
      assert RankOk(s.jobs[id], s.groups);
      if s.jobs[id].spec.groupId == gid {
        assert Enrolled(s.jobs[id].spec, s.groups);
        assert id in s.groups[gid].jobIds;
      }
    }
  }

  /** A single job, or a rank whose group is registered and not PENDING any more; as
      every RUNNING job is. */
  predicate Launched(spec: JobSpec, groups: GroupMap) {
    spec.groupId != "" ==> spec.groupId in groups && groups[spec.groupId].state != GroupPending
  }

  lemma RunningIsLaunched(rec: JobRec, groups: GroupMap)
    requires RankOk(rec, groups) && rec.state == Running
    ensures Launched(rec.spec, groups)
    ensures rec.spec.groupId != "" ==> groups[rec.spec.groupId].state in {GroupRunning, GroupFailed}
  {
  }

  lemma GroupReportOk(m: Master, gid: string, jobId: string, success: bool, now: int)
    requires Shape(m.sched) && OthersOk(m.sched, gid)
    requires gid in m.sched.groups && m.sched.groups[gid].state != GroupPending
    requires success || m.sched.groups[gid].state == GroupCompleted ==> RanksOk(m.sched)
    ensures RanksOk(GroupReport(m, gid, jobId, success, now).sched)
  {
    var g := m.sched.groups[gid];
    if g.state == GroupRunning {
      if !success {
        CancelSiblingsOk(m, g.jobIds, jobId, now, gid);
        CancelSiblingsSteady(m, g.jobIds, jobId, now);
        SoundStays(m.sched, CancelSiblings(m, g.jobIds, jobId, now).sched);
        FailGroupOk(CancelSiblings(m, g.jobIds, jobId, now).sched, gid);
      } else if AllDone(m.sched, g.jobIds) {
        CompleteGroupOk(m.sched, gid);
      }
    } else if g.state == GroupFailed {
      forall id | id in m.sched.jobs ensures RankOk(m.sched.jobs[id], m.sched.groups) {
      }
    }
  }

  lemma SettleOk(m: Master, r: Result, now: int)
    requires Sound(m.sched) && RanksOk(m.sched) && InState(m.sched, r.jobId, Running)
    ensures OthersOk(Settle(m, r, now).sched, m.sched.jobs[r.jobId].spec.groupId)
    ensures r.success || m.sched.jobs[r.jobId].spec.groupId == "" ==> RanksOk(Settle(m, r, now).sched)
    ensures Settle(m, r, now).sched.groups == m.sched.groups
  {
    RunningIsLaunched(m.sched.jobs[r.jobId], m.sched.groups);
  }

  lemma AllCancelledCompletes(s: Sched, gid: string)
    requires Shape(s) && RanksOk(s) && gid in s.groups && s.groups[gid].state == GroupPending
    requires AllDone(s, s.groups[gid].jobIds)
    ensures RanksOk(SetGroupState(s, gid, GroupCompleted))
  {
    var s' := SetGroupState(s, gid, GroupCompleted);
    forall id | id in s'.jobs ensures RankOk(s'.jobs[id], s'.groups) {
      assert RankOk(s.jobs[id], s.groups);
      if s.jobs[id].spec.groupId == gid {
        assert Enrolled(s.jobs[id].spec, s.groups);
      }
    }
  }

  /** A pending group tolerates any report about its ranks. */
  lemma PendingTolerates(m: Master, gid: string, jobId: string, success: bool, now: int)
    requires Shape(m.sched) && RanksOk(m.sched) && gid in m.sched.groups && m.sched.groups[gid].state == GroupPending
    ensures RanksOk(GroupReport(m, gid, jobId, success, now).sched)
  {
    var ids := m.sched.groups[gid].jobIds;
    if !success {
      CancelSiblingsOk(m, ids, jobId, now, gid);
      CancelSiblingsSteady(m, ids, jobId, now);
      SoundStays(m.sched, CancelSiblings(m, ids, jobId, now).sched);
      FailGroupOk(CancelSiblings(m, ids, jobId, now).sched, gid);
    } else if AllDone(m.sched, ids) {
      AllCancelledCompletes(m.sched, gid);
    }
  }

  /** Reports keep ranks and groups consistent, whatever job they are about. */
  lemma ReportOk(m: Master, r: Result, now: int)
    requires Shape(m.sched) && RanksOk(m.sched)
    ensures RanksOk(ReportGuarded(m, r, now).sched)
  {
    if r.jobId in m.sched.jobs {
      var gid := m.sched.jobs[r.jobId].spec.groupId;
      if InState(m.sched, r.jobId, Running) {
        RunningIsLaunched(m.sched.jobs[r.jobId], m.sched.groups);
        SettleOk(m, r, now);
        SettleSteady(m, r, now);
        ShapeStays(m.sched, Settle(m, r, now).sched);
        if gid != "" {
          GroupReportOk(Settle(m, r, now), gid, r.jobId, r.success, now);
        }
      } else if gid in m.sched.groups {
        var judged := m.(breaker := Judged(m.breaker, r, now));
        if m.sched.groups[gid].state == GroupPending {
          PendingTolerates(judged, gid, r.jobId, r.success, now);
        } else {
          GroupReportOk(judged, gid, r.jobId, r.success, now);
        }
      }
    }
  }

  // ---------- requeueing, walltime, node loss ----------

  lemma {:induction false} RequeueAllOk(m: Master, ids: seq<string>)
    requires Sound(m.sched) && RanksOk(m.sched)
    ensures RanksOk(RequeueAll(m, ids).sched)
    decreases |ids|
  {
    if ids != [] {
      var next := Requeue1(m, ids[0]);
      if InState(m.sched, ids[0], Running) {
        RunningIsLaunched(m.sched.jobs[ids[0]], m.sched.groups);
      }
      assert Sound(next.sched);
      RequeueAllOk(next, ids[1..]);
    }
  }

  lemma {:induction false} WalltimeOk(m: Master, recs: seq<JobRec>, now: int)
    requires Sound(m.sched) && RanksOk(m.sched)
    ensures RanksOk(WalltimeSweep(m, recs, now).sched)
    decreases |recs|
  {
    if recs != [] {
      var next := Kill1(m, recs[0], now);
      CancelOk(m.sched, recs[0].spec.id, now, "");
      if Overran(recs[0], now) {
        CancelSteady(m, next, recs[0].spec.id, now);
        SoundStays(m.sched, next.sched);
      }
      WalltimeOk(next, recs[1..], now);
    }
  }

  lemma Lose1Ok(m: Master, node: string, rec: JobRec, now: int)
    requires Sound(m.sched) && RanksOk(m.sched)
    requires InState(m.sched, rec.spec.id, Running) && m.sched.jobs[rec.spec.id] == rec
    ensures RanksOk(Lose1(m, node, rec, now).sched)
  {
    RunningIsLaunched(rec, m.sched.groups);
    var gid := rec.spec.groupId;
    var failed := MarkCompleted(m.sched, rec.spec.id, false, "", "worker node lost", now);
    assert failed.jobs == m.sched.jobs[rec.spec.id := Lost(rec, now)];
    assert OthersOk(failed, gid);
    if gid != "" && m.sched.groups[gid].state == GroupRunning {
      FailGroupOk(failed, gid);
    }
  }

  lemma {:induction false} LoseAllOk(m: Master, node: string, recs: seq<JobRec>, now: int)
    requires Sound(m.sched) && RanksOk(m.sched) && Current(m, recs)
    ensures RanksOk(LoseAll(m, node, recs, now).sched)
    decreases |recs|
  {
    if recs != [] {
      assert recs[0] in recs;
      var next := Lose1(m, node, recs[0], now);
      Lose1Ok(m, node, recs[0], now);
      Lose1Steady(m, node, recs[0], now);
      Lose1Effect(m, node, recs[0], now);
      SoundStays(m.sched, next.sched);
      CurrentTail(m, next, recs);
      LoseAllOk(next, node, recs[1..], now);
    }
  }

  // ---------- dispatch ----------

  /** Only ranks of one group changed, and they run. */
  ghost predicate OnlyRanRanks(s: Sched, s': Sched, gid: string) {
    && s'.groups == s.groups && s'.jobs.Keys == s.jobs.Keys
    && (forall id | id in s.jobs :: s'.jobs[id] == s.jobs[id]
          || (s'.jobs[id].state == Running && s'.jobs[id].spec == s.jobs[id].spec && s.jobs[id].spec.groupId == gid))
  }

  lemma {:induction false} DispatchRanksRuns(m: Master, ranks: seq<JobRec>, nodes: seq<Member>, addr: string,
        now: int, gid: string)
    requires Sound(m.sched) && |ranks| == |nodes| && Waiting(m.sched, ranks)
    requires forall r | r in ranks :: r.spec.groupId == gid
    ensures OnlyRanRanks(m.sched, DispatchRanks(m, ranks, nodes, addr, now).sched, gid)
    decreases |ranks|
  {
    if ranks != [] {
      assert ranks[0] in ranks;
      var next := Start1(m, ranks[0], nodes[0], addr, now);
      Start1Effect(m, ranks[0], nodes[0], addr, now);
      WaitingTail(m, ranks, nodes[0], addr, now);
      assert OnlyRanRanks(m.sched, next.sched, gid);
      DispatchRanksRuns(next, ranks[1..], nodes[1..], addr, now, gid);
    }
  }

  /** Ranks of a registered group belong to it. */
  lemma QueuedRanksBelong(s: Sched, gid: string)
    requires Shape(s) && gid in s.groups
    ensures forall r | r in QueuedAmong(s, s.groups[gid].jobIds) :: r.spec.groupId == gid
  {
    var g := s.groups[gid];
    QueuedAmongWaits(s, g.jobIds);
    forall r | r in QueuedAmong(s, g.jobIds) ensures r.spec.groupId == gid {
      assert RanksOf(s.jobs, g);
      var i :| 0 <= i < |g.jobIds| && g.jobIds[i] == r.spec.id;
    }
  }

  lemma StartGroupOk(s: Sched, s': Sched, gid: string)
    requires GroupsNamed(s) && RanksOk(s) && gid in s.groups && s.groups[gid].state == GroupPending
    requires OnlyRanRanks(s, s', gid)
    ensures RanksOk(SetGroupState(s', gid, GroupRunning))
  {
    var s'' := SetGroupState(s', gid, GroupRunning);
    forall id | id in s''.jobs ensures RankOk(s''.jobs[id], s''.groups) {
      assert RankOk(s.jobs[id], s.groups);
    }
  }

  lemma TryGangOk(m: Master, g: GroupRec, matches: Matcher, now: int)
    requires Shape(m.sched) && RanksOk(m.sched) && GangShaped(g) && PendingNow(m.sched, g)
    ensures RanksOk(TryGang(m, g, matches, now).sched)
  {
    var ranks := QueuedAmong(m.sched, g.jobIds);
    QueuedAmongWaits(m.sched, g.jobIds);
    QueuedRanksBelong(m.sched, g.id);
    var fit := MatchRanks(m.breaker, m.ledger, matches, {}, ranks, m.members, now);
    if |ranks| == g.numNodes && fit.found.Some? {
      MatchRanksLength(m.breaker, m.ledger, matches, {}, ranks, m.members, now);
      var nodes := fit.found.value;
      var asked := m.(breaker := fit.breaker);
      DispatchRanksRuns(asked, ranks, nodes, nodes[0].addr, now, g.id);
      StartGroupOk(m.sched, DispatchRanks(asked, ranks, nodes, nodes[0].addr, now).sched, g.id);
    }
  }

  lemma GangTickOk(m: Master, g: GroupRec, matches: Matcher, now: int)
    requires Shape(m.sched) && RanksOk(m.sched) && GangShaped(g) && PendingNow(m.sched, g)
    ensures RanksOk(GangTick(m, g, matches, now).sched)
  {
    if TimedOut(g, now) {
      var c := CancelRanks(m.sched, g.jobIds, now);
      CancelRanksOk(m, g.jobIds, now);
      CancelRanksSteady(m, g.jobIds, now);
      SoundStays(m.sched, c);
      FailGroupOk(c, g.id);
    } else {
      TryGangOk(m, g, matches, now);
    }
  }

  /** A pending group has no running rank, so its timeout owes no release. */
  lemma PendingHasNoRunning(s: Sched, g: GroupRec)
    requires Shape(s) && RanksOk(s) && PendingNow(s, g)
    ensures forall id | id in g.jobIds :: !InState(s, id, Running)
  {
    forall id | id in g.jobIds ensures !InState(s, id, Running) {
      if id in s.jobs {
        assert RanksOf(s.jobs, g);
        var i :| 0 <= i < |g.jobIds| && g.jobIds[i] == id;
        assert RankOk(s.jobs[id], s.groups);
      }
    }
  }

  lemma AssignsCanStart(m: Master, ranks: seq<JobRec>, matches: Matcher, now: int, nodes: seq<Member>)
    requires Waiting(m.sched, ranks) && Assigns(m.breaker, m.ledger, matches, ranks, m.members, now, nodes)
    ensures CanStart(m, ranks, nodes)
  {
  }

  /** Starting every rank and declaring the group RUNNING. */
  lemma StartGangCore(m: Master, ranks: seq<JobRec>, nodes: seq<Member>, addr: string, now: int, gid: string)
    requires Core(m) && CanStart(m, ranks, nodes)
    ensures var started := DispatchRanks(m, ranks, nodes, addr, now);
            Core(started.(sched := SetGroupState(started.sched, gid, GroupRunning)))
  {
    DispatchRanksCore(m, ranks, nodes, addr, now);
  }

  lemma TryGangCore(m: Master, g: GroupRec, matches: Matcher, now: int)
    requires Core(m) && Sound(m.sched) && GangShaped(g)
    ensures Core(TryGang(m, g, matches, now))
  {
    hide CoreOf;
    var ranks := QueuedAmong(m.sched, g.jobIds);
    QueuedAmongWaits(m.sched, g.jobIds);
    MatchSound(m.breaker, m.ledger, matches, {}, ranks, m.members, now);
    var fit := MatchRanks(m.breaker, m.ledger, matches, {}, ranks, m.members, now);
    if |ranks| == g.numNodes && fit.found.Some? {
      MatchRanksLength(m.breaker, m.ledger, matches, {}, ranks, m.members, now);
      AssignsCanStart(m, ranks, matches, now, fit.found.value);
      assert CanStart(m.(breaker := fit.breaker), ranks, fit.found.value);
      hide CanStart, Assigns, Waiting;
      StartGangCore(m.(breaker := fit.breaker), ranks, fit.found.value, fit.found.value[0].addr, now, g.id);
    }
  }

  lemma GangTickCore(m: Master, g: GroupRec, matches: Matcher, now: int)
    requires Core(m) && Shape(m.sched) && RanksOk(m.sched) && GangShaped(g) && PendingNow(m.sched, g)
    ensures Core(GangTick(m, g, matches, now))
  {
    if TimedOut(g, now) {
      PendingHasNoRunning(m.sched, g);
      CancelRanksCore(m, g.jobIds, now);
    } else {
      TryGangCore(m, g, matches, now);
    }
  }

  /** Phase 0 keeps everything. */
  lemma {:induction false} GangPhaseKeeps(m: Master, gs: seq<GroupRec>, matches: Matcher, now: int)
    requires (forall g | g in gs :: g.numNodes >= 1) && AllPending(m.sched, gs)
    requires Core(m) && Shape(m.sched) && RanksOk(m.sched)
    ensures Core(GangPhase(m, gs, matches, now))
    ensures RanksOk(GangPhase(m, gs, matches, now).sched)
    decreases |gs|
  {
    if gs != [] {
      assert gs[0] in gs;
      var next := GangTick(m, gs[0], matches, now);
      GangTickCore(m, gs[0], matches, now);
      GangTickOk(m, gs[0], matches, now);
      GangTickSteady(m, gs[0], matches, now);
      ShapeStays(m.sched, next.sched);
      AllPendingTail(m, gs, matches, now);
      GangPhaseKeeps(next, gs[1..], matches, now);
    }
  }
}
