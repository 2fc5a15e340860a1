/** Submitting single jobs and gangs. */
module Submission {
  import opened Types
  import opened Scheduling
  import opened MasterSteps
  import opened Placement
  import opened CoreSteps
  import opened Continuity
  import opened ContinuitySteps
  import opened Groups

  // ---------- identifiers ----------

  /** strconv.Itoa gives different numbers different names. */
  lemma {:induction false} ItoaInjective(a: nat, b: nat)
    requires Itoa(a) == Itoa(b)
    ensures a == b
  {
    ItoaLast(a);
    ItoaLast(b);
    if a >= 10 && b >= 10 {
      assert Itoa(a / 10) == Itoa(a)[..|Itoa(a)| - 1];
      assert Itoa(b / 10) == Itoa(b)[..|Itoa(b)| - 1];
      ItoaInjective(a / 10, b / 10);
    }
  }

  lemma {:induction false} ItoaLast(n: nat)
    ensures |Itoa(n)| >= 1 && Itoa(n)[|Itoa(n)| - 1] == Digit(n % 10)
    ensures n >= 10 <==> |Itoa(n)| >= 2
  {
    if n >= 10 {
      ItoaLast(n / 10);
    }
  }

  /** Ranks of one group have distinct ids. */
  lemma RankIdInjective(gid: string, a: nat, b: nat)
    requires RankId(gid, a) == RankId(gid, b)
    ensures a == b
  {
    var p := |gid + "-r"|;
    assert RankId(gid, a)[p..] == Itoa(a);
    assert RankId(gid, b)[p..] == Itoa(b);
    ItoaInjective(a, b);
  }

  /** A fresh job id: not tracked, and not in any group's list. */
  ghost predicate FreshId(s: Sched, id: string) {
    id !in s.jobs && forall gid | gid in s.groups :: id !in s.groups[gid].jobIds
  }

  /** A fresh group id, whose rank ids are fresh too. */
  ghost predicate FreshGroup(s: Sched, gid: string, req: GangRequest) {
    && gid != "" && gid !in s.groups
    && (forall id | id in s.jobs :: s.jobs[id].spec.groupId != gid)
    && (forall r: nat :: FreshId(s, RankId(gid, r)))
  }

  /** No rank from `rank` on is tracked yet. */
  ghost predicate RanksUntracked(s: Sched, gid: string, rank: nat) {
    forall r: nat | rank <= r :: RankId(gid, r) !in s.jobs
  }

  lemma FreshRanks(s: Sched, gid: string, req: GangRequest)
    requires FreshGroup(s, gid, req)
    ensures RanksUntracked(s, gid, 0)
  {
    forall r: nat ensures RankId(gid, r) !in s.jobs {
      assert FreshId(s, RankId(gid, r));
    }
  }

  // ---------- single jobs ----------

  lemma SubmitJobShape(s: Sched, spec: JobSpec)
    requires Shape(s) && FreshId(s, spec.id) && spec.groupId == ""
    ensures Shape(Enqueue(s, NewJob(spec)))
  {
    if !Full(s) {
      var s' := Enqueue(s, NewJob(spec));
      forall gid | gid in s'.groups ensures RanksOf(s'.jobs, s'.groups[gid]) {
        assert RanksOf(s.jobs, s.groups[gid]);
        assert spec.id !in s.groups[gid].jobIds;
      }
      forall a, b | a in s'.jobs && b in s'.jobs ensures Alike(s'.jobs[a].spec, s'.jobs[b].spec) {
      }
    }
  }

  lemma SubmitJobKeeps(m: Master, cfg: Config, id: string, req: JobRequest, now: int)
    requires Core(m) && Shape(m.sched) && RanksOk(m.sched)
    requires FreshId(m.sched, id) && req.need.NonNegative()
    ensures var m' := SubmitJob(m, cfg, id, req, now); Core(m') && Shape(m'.sched) && RanksOk(m'.sched)
  {
    var spec := SingleSpec(m, cfg, id, req, now);
    AdmitCore(m, NewJob(spec));
    SubmitJobShape(m.sched, spec);
  }

  // ---------- gangs ----------

  lemma {:induction false} AdmitRanksCore(m: Master, gid: string, req: GangRequest, rank: nat, now: int)
    requires Core(m) && req.job.need.NonNegative()
    requires forall r: nat | rank <= r :: RankId(gid, r) !in m.sched.jobs
    ensures Core(m.(sched := AdmitRanks(m.sched, gid, req, rank, now)))
    decreases Ranks(req) - rank
  {
    if rank < Ranks(req) && !Full(m.sched) {
      var spec := RankSpec(gid, req, rank, now);
      var next := m.(sched := Enqueue(m.sched, NewJob(spec)));
      AdmitCore(m, NewJob(spec));
      forall r: nat | rank + 1 <= r ensures RankId(gid, r) !in next.sched.jobs {
        if RankId(gid, r) == spec.id {
          RankIdInjective(gid, r, rank);
        }
      }
      AdmitRanksCore(next, gid, req, rank + 1, now);
    }
  }

  /** The job is the rank that its id names, freshly queued. */
  ghost predicate IsRank(rec: JobRec, gid: string, req: GangRequest, now: int, rank: nat) {
    rec == NewJob(RankSpec(gid, req, rank, now))
  }

  /** Admission adds only ranks, from `rank` on, and forgets no job. */
  ghost predicate AddsRanks(s: Sched, s': Sched, gid: string, req: GangRequest, rank: nat, now: int) {
    && s'.groups == s.groups && s'.maxQueueSize == s.maxQueueSize
    && (forall id | id in s.jobs :: id in s'.jobs && s'.jobs[id] == s.jobs[id])
    && (forall id | id in s'.jobs && id !in s.jobs ::
          exists r: nat :: rank <= r < Ranks(req) && id == RankId(gid, r) && IsRank(s'.jobs[id], gid, req, now, r))
  }

  lemma AddsRanksStep(s: Sched, next: Sched, s': Sched, gid: string, req: GangRequest, rank: nat, now: int)
    requires rank < Ranks(req) && RankId(gid, rank) !in s.jobs
    requires next.groups == s.groups && next.maxQueueSize == s.maxQueueSize
    requires next.jobs == s.jobs[RankId(gid, rank) := NewJob(RankSpec(gid, req, rank, now))]
    requires AddsRanks(next, s', gid, req, rank + 1, now)
    ensures AddsRanks(s, s', gid, req, rank, now)
  {
    forall id | id in s'.jobs && id !in s.jobs
      ensures exists r: nat :: rank <= r < Ranks(req) && id == RankId(gid, r) && IsRank(s'.jobs[id], gid, req, now, r)
    {
      if id in next.jobs {
        assert IsRank(s'.jobs[id], gid, req, now, rank);
      } else {
        var r: nat :| rank + 1 <= r < Ranks(req) && id == RankId(gid, r) && IsRank(s'.jobs[id], gid, req, now, r);
      }
    }
  }

  lemma RanksUntrackedNext(s: Sched, gid: string, req: GangRequest, rank: nat, now: int)
    requires RanksUntracked(s, gid, rank)
    ensures RanksUntracked(Enqueue(s, NewJob(RankSpec(gid, req, rank, now))), gid, rank + 1)
  {
    var next := Enqueue(s, NewJob(RankSpec(gid, req, rank, now)));
    forall r: nat | rank + 1 <= r ensures RankId(gid, r) !in next.jobs {
      if RankId(gid, r) == RankId(gid, rank) {
        RankIdInjective(gid, r, rank);
      }
    }
  }

  lemma {:induction false} AdmissionAdds(s: Sched, gid: string, req: GangRequest, rank: nat, now: int)
    requires RanksUntracked(s, gid, rank)
    ensures AddsRanks(s, AdmitRanks(s, gid, req, rank, now), gid, req, rank, now)
    decreases Ranks(req) - rank
  {
    if rank < Ranks(req) && !Full(s) {
      var next := Enqueue(s, NewJob(RankSpec(gid, req, rank, now)));
      RanksUntrackedNext(s, gid, req, rank, now);
      AdmissionAdds(next, gid, req, rank + 1, now);
      AddsRanksStep(s, next, AdmitRanks(s, gid, req, rank, now), gid, req, rank, now);
    }
  }

  lemma {:induction false} AdmissionNotifies(s: Sched, gid: string, req: GangRequest, rank: nat, now: int)
    ensures Notified(s, AdmitRanks(s, gid, req, rank, now))
    decreases Ranks(req) - rank
  {
    if rank < Ranks(req) && !Full(s) {
      var spec := RankSpec(gid, req, rank, now);
      var next := Enqueue(s, NewJob(spec));
      AdmissionNotifies(next, gid, req, rank + 1, now);
      EnqueueNotifies(s, spec);
      NotifiedTrans(s, next, AdmitRanks(s, gid, req, rank, now));
    }
  }

  lemma EnqueueNotifies(s: Sched, spec: JobSpec)
    ensures Notified(s, Enqueue(s, NewJob(spec)))
  {
    assert !Full(s) ==> JobWrite(spec.id) in Enqueue(s, NewJob(spec)).writes;
  }

  /** The registered group lists exactly its ranks. */
  lemma GangRecShaped(gid: string, req: GangRequest, now: int)
    ensures GangShaped(GangRec(gid, req, now))
  {
    var ids := RankIds(gid, Ranks(req));
    forall i, j | 0 <= i < j < |ids| ensures ids[i] != ids[j] {
      if ids[i] == ids[j] {
        RankIdInjective(gid, i, j);
      }
    }
  }

  /** A rank's environment: five variables are set whatever the user says, all
      others are the user's. */
  lemma RankEnvCarries(req: GangRequest, rank: nat)
    ensures var env := RankEnv(req, rank);
            && "RANK" in env && env["RANK"] == Itoa(rank)
            && "WORLD_SIZE" in env && env["WORLD_SIZE"] == Itoa(if req.nodes < 1 then 1 else req.nodes)
            && "MASTER_PORT" in env
            && env["MASTER_PORT"] == SignedItoa(if req.masterPort == 0 then 29500 else req.masterPort)
            && "LOCAL_RANK" in env && env["LOCAL_RANK"] == "0"
            && "NPROC_PER_NODE" in env && env["NPROC_PER_NODE"] == SignedItoa(req.job.need.gpus)
    ensures forall k | k !in {"RANK", "WORLD_SIZE", "MASTER_PORT", "LOCAL_RANK", "NPROC_PER_NODE"} ::
        (k in RankEnv(req, rank) <==> k in req.job.env)
        && (k in req.job.env ==> RankEnv(req, rank)[k] == req.job.env[k])
  {
    assert "MASTER_PORT" != "LOCAL_RANK" && "MASTER_PORT" != "NPROC_PER_NODE" && "LOCAL_RANK" != "NPROC_PER_NODE";
    assert "RANK" != "WORLD_SIZE" && "RANK" != "MASTER_PORT" && "RANK" != "LOCAL_RANK" && "RANK" != "NPROC_PER_NODE";
    assert "WORLD_SIZE" != "MASTER_PORT" && "WORLD_SIZE" != "LOCAL_RANK" && "WORLD_SIZE" != "NPROC_PER_NODE";
  }

  lemma NewRankFits(s': Sched, gid: string, req: GangRequest, id: string, now: int, r: nat)
    requires id in s'.jobs && id == RankId(gid, r) && r < Ranks(req) && IsRank(s'.jobs[id], gid, req, now, r)
    ensures s'.jobs[id].spec.id == id && s'.jobs[id].spec.groupId == gid
    ensures s'.jobs[id].spec.need == req.job.need && s'.jobs[id].spec.requirement == req.job.requirement
    ensures id in RankIds(gid, Ranks(req)) && s'.jobs[id].state == Queued
  {
    assert RankIds(gid, Ranks(req))[r] == id;
  }

  /** Jobs of the new group are its ranks; all others were there before. */
  ghost predicate Extends(s: Sched, s': Sched, gid: string, req: GangRequest, now: int) {
    && (forall id | id in s.jobs :: id in s'.jobs && s'.jobs[id] == s.jobs[id] && s.jobs[id].spec.groupId != gid)
    && (forall id | id in s'.jobs && id !in s.jobs ::
          && s'.jobs[id].spec.id == id && s'.jobs[id].spec.groupId == gid
          && s'.jobs[id].spec.need == req.job.need && s'.jobs[id].spec.requirement == req.job.requirement
          && id in RankIds(gid, Ranks(req)) && s'.jobs[id].state == Queued)
  }

  lemma AdmissionExtends(s: Sched, gid: string, req: GangRequest, now: int)
    requires FreshGroup(s, gid, req)
    ensures Extends(s, AdmitRanks(s, gid, req, 0, now), gid, req, now)
    ensures AdmitRanks(s, gid, req, 0, now).groups == s.groups
  {
    FreshRanks(s, gid, req);
    AdmissionAdds(s, gid, req, 0, now);
    var s' := AdmitRanks(s, gid, req, 0, now);
    forall id | id in s'.jobs && id !in s.jobs
      ensures s'.jobs[id].spec.id == id && s'.jobs[id].spec.groupId == gid
      ensures s'.jobs[id].spec.need == req.job.need && s'.jobs[id].spec.requirement == req.job.requirement
      ensures id in RankIds(gid, Ranks(req)) && s'.jobs[id].state == Queued
    {
      var r: nat :| r < Ranks(req) && id == RankId(gid, r) && IsRank(s'.jobs[id], gid, req, now, r);
      NewRankFits(s', gid, req, id, now, r);
    }
  }

  /** Old groups do not list new ranks. */
  lemma OldRanksOf(s: Sched, s': Sched, gid: string, req: GangRequest, now: int, g: string)
    requires Extends(s, s', gid, req, now) && FreshGroup(s, gid, req)
    requires g in s.groups && RanksOf(s.jobs, s.groups[g])
    ensures RanksOf(s'.jobs, s.groups[g])
  {
    forall id | id in RankIds(gid, Ranks(req)) ensures id !in s.groups[g].jobIds {
      var r: nat :| r < Ranks(req) && RankIds(gid, Ranks(req))[r] == id;
      assert FreshId(s, RankId(gid, r));
    }
  }

  /** The new group's ranks carry their rank number and the world size. */
  lemma NewRanksOf(s: Sched, gid: string, req: GangRequest, now: int)
    requires FreshGroup(s, gid, req)
    ensures RanksOf(AdmitRanks(s, gid, req, 0, now).jobs, GangRec(gid, req, now))
  {
    FreshRanks(s, gid, req);
    AdmissionAdds(s, gid, req, 0, now);
    var s' := AdmitRanks(s, gid, req, 0, now);
    var g := GangRec(gid, req, now);
    forall i | 0 <= i < |g.jobIds| && g.jobIds[i] in s'.jobs ensures IsRank(s'.jobs[g.jobIds[i]], gid, req, now, i) {
      var r: nat :| r < Ranks(req) && g.jobIds[i] == RankId(gid, r) && IsRank(s'.jobs[g.jobIds[i]], gid, req, now, r);
      RankIdInjective(gid, i, r);
    }
    forall i: nat | i < |g.jobIds| ensures RankEnvOk(req, i) {
      RankEnvCarries(req, i);
    }
    forall i | 0 <= i < |g.jobIds| && g.jobIds[i] in s'.jobs
      ensures var spec := s'.jobs[g.jobIds[i]].spec;
              && spec.groupId == g.id
              && "RANK" in spec.env && spec.env["RANK"] == Itoa(i)
              && "WORLD_SIZE" in spec.env && spec.env["WORLD_SIZE"] == Itoa(|g.jobIds|)
    {
      assert IsRank(s'.jobs[g.jobIds[i]], gid, req, now, i);
      assert RankEnvOk(req, i);
    }
  }

  predicate RankEnvOk(req: GangRequest, rank: nat) {
    var env := RankEnv(req, rank);
    && "RANK" in env && env["RANK"] == Itoa(rank)
    && "WORLD_SIZE" in env && env["WORLD_SIZE"] == Itoa(Ranks(req))
  }

  lemma ExtendsRanks(s: Sched, s': Sched, gid: string, req: GangRequest, now: int)
    requires RanksOk(s) && FreshGroup(s, gid, req) && Extends(s, s', gid, req, now)
    requires s'.groups == s.groups
    ensures RanksOk(s')
  {
    forall id | id in s'.jobs ensures RankOk(s'.jobs[id], s'.groups) {
      assert id in s.jobs ==> RankOk(s.jobs[id], s.groups);
    }
  }

  lemma ExtendsShape(s: Sched, s': Sched, gid: string, req: GangRequest, now: int)
    requires Shape(s) && FreshGroup(s, gid, req) && Extends(s, s', gid, req, now)
    requires s'.groups == s.groups
    ensures Shape(s')
  {
    forall g | g in s'.groups ensures RanksOf(s'.jobs, s'.groups[g]) {
      OldRanksOf(s, s', gid, req, now, g);
    }
    forall id | id in s'.jobs ensures Enrolled(s'.jobs[id].spec, s'.groups) {
      assert id in s.jobs ==> Enrolled(s.jobs[id].spec, s.groups);
    }
    forall a, b | a in s'.jobs && b in s'.jobs ensures Alike(s'.jobs[a].spec, s'.jobs[b].spec) {
      assert a in s.jobs && b in s.jobs ==> Alike(s.jobs[a].spec, s.jobs[b].spec);
    }
  }

  /** Registering the group on top of its admitted ranks. */
  lemma RegisterShape(s: Sched, s': Sched, gid: string, req: GangRequest, now: int)
    requires Shape(s') && FreshGroup(s, gid, req) && Extends(s, s', gid, req, now)
    requires s'.groups == s.groups && RanksOf(s'.jobs, GangRec(gid, req, now))
    ensures Shape(PutGroup(s', GangRec(gid, req, now)))
  {
    var s'' := PutGroup(s', GangRec(gid, req, now));
    GangRecShaped(gid, req, now);
    forall g | g in s''.groups ensures g != "" && GangShaped(s''.groups[g]) && RanksOf(s''.jobs, s''.groups[g]) {
    }
    forall id | id in s''.jobs ensures Enrolled(s''.jobs[id].spec, s''.groups) {
      assert Enrolled(s'.jobs[id].spec, s'.groups);
    }
  }

  lemma RegisterRanks(s: Sched, s': Sched, gid: string, req: GangRequest, now: int)
    requires RanksOk(s') && FreshGroup(s, gid, req) && Extends(s, s', gid, req, now) && s'.groups == s.groups
    ensures RanksOk(PutGroup(s', GangRec(gid, req, now)))
  {
    var s'' := PutGroup(s', GangRec(gid, req, now));
    forall id | id in s''.jobs ensures RankOk(s''.jobs[id], s''.groups) {
      assert RankOk(s'.jobs[id], s'.groups);
    }
  }

  /** The shape of groups and ranks survives the submission of a gang. */
  lemma SubmitGangShape(s: Sched, gid: string, req: GangRequest, now: int)
    requires Shape(s) && FreshGroup(s, gid, req)
    ensures Shape(AdmitRanks(s, gid, req, 0, now))
    ensures Shape(PutGroup(AdmitRanks(s, gid, req, 0, now), GangRec(gid, req, now)))
  {
    var s' := AdmitRanks(s, gid, req, 0, now);
    AdmissionExtends(s, gid, req, now);
    ExtendsShape(s, s', gid, req, now);
    NewRanksOf(s, gid, req, now);
    RegisterShape(s, s', gid, req, now);
  }

  lemma SubmitGangKeeps(m: Master, gid: string, req: GangRequest, now: int)
    requires Core(m) && Shape(m.sched) && RanksOk(m.sched)
    requires FreshGroup(m.sched, gid, req) && req.job.need.NonNegative()
    ensures var m' := SubmitGang(m, gid, req, now); Core(m') && Shape(m'.sched) && RanksOk(m'.sched)
  {
    var s' := AdmitRanks(m.sched, gid, req, 0, now);
    forall r: nat ensures RankId(gid, r) !in m.sched.jobs {
      assert FreshId(m.sched, RankId(gid, r));
    }
    AdmitRanksCore(m, gid, req, 0, now);
    AdmissionExtends(m.sched, gid, req, now);
    SubmitGangShape(m.sched, gid, req, now);
    ExtendsRanks(m.sched, s', gid, req, now);
    RegisterRanks(m.sched, s', gid, req, now);
  }
}
