/** What a submission leaves behind, in terms of the request alone. */
module Admission {
  import opened Types
  import opened HeapOrder
  import opened Scheduling
  import opened MasterSteps
  import opened Placement
  import opened Submission
  import Fairshare

  // ---------- numbers as text ----------

  /** The number that a text of decimal digits stands for. */
  function Number(s: string): int {
    if s == [] then 0 else 10 * Number(s[..|s| - 1]) + (s[|s| - 1] as int - '0' as int)
  }

  /** strconv.Itoa writes the number in decimal digits, without leading zeros. */
  lemma {:induction false} ItoaReads(n: nat)
    ensures |Itoa(n)| > 0 && Number(Itoa(n)) == n
    ensures forall c | c in Itoa(n) :: '0' <= c <= '9'
    ensures n > 0 ==> Itoa(n)[0] != '0'
  {
    if n >= 10 {
      ItoaReads(n / 10);
      assert Itoa(n)[..|Itoa(n)| - 1] == Itoa(n / 10);
    } else {
      assert Itoa(n)[..0] == [];
    }
  }

  // ---------- single jobs ----------

  /** The job asks for what the request asks for; the defaults are priority 10 and
      user "anonymous". */
  predicate Requested(spec: JobSpec, req: JobRequest, penalty: int) {
    && spec.priority == (if req.priority == 0 then 10 else req.priority) + penalty
    && spec.user == (if req.user == "" then "anonymous" else req.user)
    && spec.requirement == req.requirement && spec.command == req.command && spec.walltime == req.walltime
    && spec.need == req.need
  }

  function PenaltyOf(m: Master, req: JobRequest): int {
    Fairshare.Penalty(m.usage, if req.user == "" then "anonymous" else req.user)
  }

  /** A job is refused, without a trace, exactly when the heap has reached a positive
      bound; an accepted one waits in the heap exactly as requested, its priority
      raised by the user's penalty. */
  lemma SubmittedJobWaits(m: Master, cfg: Config, id: string, req: JobRequest, now: int)
    requires Core(m) && FreshId(m.sched, id)
    ensures var m' := SubmitJob(m, cfg, id, req, now);
            if m.sched.maxQueueSize > 0 && |m.sched.queue| >= m.sched.maxQueueSize then m' == m
            else
              && id in m'.sched.jobs
              && m'.sched.jobs[id] == JobRec(m'.sched.jobs[id].spec, 0, Queued, "", 0, 0, "", "")
              && Requested(m'.sched.jobs[id].spec, req, PenaltyOf(m, req))
              && m'.sched.jobs[id].spec.id == id && m'.sched.jobs[id].spec.submitTime == now
              && m'.sched.jobs[id].spec.env == req.env && m'.sched.jobs[id].spec.groupId == ""
              && m'.sched.jobs[id].spec.maxRetries == cfg.maxRetries
              && multiset(m'.sched.queue) == multiset(m.sched.queue) + multiset{m'.sched.jobs[id].spec}
              && m'.sched.jobs == m.sched.jobs[id := m'.sched.jobs[id]]
              && m' == m.(sched := m'.sched) && m'.sched.groups == m.sched.groups
  {
    PushCorrect(m.sched.queue, SingleSpec(m, cfg, id, req, now));
  }

  // ---------- gangs ----------

  /** How many ranks the gang has: as many as it asks for nodes, but at least one. */
  function Size(req: GangRequest): nat {
    if req.nodes < 1 then 1 else req.nodes
  }

  /** How many of n ranks the heap has room for. */
  function Room(s: Sched, n: nat): nat {
    if s.maxQueueSize <= 0 || |s.queue| + n <= s.maxQueueSize then n
    else if |s.queue| >= s.maxQueueSize then 0
    else s.maxQueueSize - |s.queue|
  }

  /** The five variables of a rank, whatever the user says of them; all others are the
      user's. */
  predicate RankVariables(env: map<string, string>, req: GangRequest, rank: nat) {
    && "RANK" in env && env["RANK"] == Itoa(rank)
    && "WORLD_SIZE" in env && env["WORLD_SIZE"] == Itoa(Size(req))
    && "MASTER_PORT" in env && env["MASTER_PORT"] == SignedItoa(if req.masterPort == 0 then 29500 else req.masterPort)
    && "LOCAL_RANK" in env && env["LOCAL_RANK"] == "0"
    && "NPROC_PER_NODE" in env && env["NPROC_PER_NODE"] == SignedItoa(req.job.need.gpus)
    && env.Keys == req.job.env.Keys + {"RANK", "WORLD_SIZE", "MASTER_PORT", "LOCAL_RANK", "NPROC_PER_NODE"}
    && (forall k | k in req.job.env && k !in {"RANK", "WORLD_SIZE", "MASTER_PORT", "LOCAL_RANK", "NPROC_PER_NODE"} ::
          env[k] == req.job.env[k])
  }

  /** Rank number `rank` of the gang, just submitted: everybody gets what the request
      asks for, without penalty and without retries. */
  predicate Rank(rec: JobRec, gid: string, req: GangRequest, rank: nat, now: int) {
    && rec == JobRec(rec.spec, 0, Queued, "", 0, 0, "", "")
    && Requested(rec.spec, req.job, 0)
    && rec.spec.id == gid + "-r" + Itoa(rank)
    && rec.spec.submitTime == now && rec.spec.maxRetries == 0 && rec.spec.groupId == gid
    && RankVariables(rec.spec.env, req, rank)
  }

  lemma NewIsRank(gid: string, req: GangRequest, rank: nat, now: int)
    ensures Rank(NewJob(RankSpec(gid, req, rank, now)), gid, req, rank, now)
  {
    RankEnvCarries(req, rank);
  }

  /** The gang is admitted as a whole iff it fits. */
  lemma {:induction false} AdmittedIfRoom(s: Sched, gid: string, req: GangRequest, rank: nat, now: int)
    ensures AllAdmitted(s, gid, req, rank, now)
        <==> rank >= Ranks(req) || s.maxQueueSize <= 0 || |s.queue| + (Ranks(req) - rank) <= s.maxQueueSize
    decreases Ranks(req) - rank
  {
    if rank < Ranks(req) && !Full(s) {
      AdmittedIfRoom(Enqueue(s, NewJob(RankSpec(gid, req, rank, now))), gid, req, rank + 1, now);
    }
  }

  /** The first ranks are admitted, as long as there is room, and no others. */
  lemma {:induction false} AdmitsFirst(s: Sched, gid: string, req: GangRequest, rank: nat, now: int, r: nat)
    requires RanksUntracked(s, gid, rank) && rank <= r < Ranks(req)
    ensures var s' := AdmitRanks(s, gid, req, rank, now);
            if s.maxQueueSize <= 0 || |s.queue| + (r - rank) < s.maxQueueSize
            then RankId(gid, r) in s'.jobs && s'.jobs[RankId(gid, r)] == NewJob(RankSpec(gid, req, r, now))
            else RankId(gid, r) !in s'.jobs
    decreases Ranks(req) - rank
  {
    if !Full(s) {
      var next := Enqueue(s, NewJob(RankSpec(gid, req, rank, now)));
      RanksUntrackedNext(s, gid, req, rank, now);
      if rank < r {
        AdmitsFirst(next, gid, req, rank + 1, now, r);
      } else {
        AdmissionAdds(next, gid, req, rank + 1, now);
      }
    }
  }

  lemma {:induction false} AdmissionFills(s: Sched, gid: string, req: GangRequest, rank: nat, now: int)
    requires rank <= Ranks(req)
    ensures |AdmitRanks(s, gid, req, rank, now).queue| == |s.queue| + Room(s, Ranks(req) - rank)
    decreases Ranks(req) - rank
  {
    if rank < Ranks(req) && !Full(s) {
      AdmissionFills(Enqueue(s, NewJob(RankSpec(gid, req, rank, now))), gid, req, rank + 1, now);
    }
  }

  /** Rank r waits if the heap had room for it, and is not tracked otherwise. */
  predicate WaitsOrNot(s: Sched, s': Sched, gid: string, req: GangRequest, now: int, r: nat) {
    var id := gid + "-r" + Itoa(r);
    if r < Room(s, Size(req)) then id in s'.jobs && Rank(s'.jobs[id], gid, req, r, now) else id !in s'.jobs
  }

  /** The first ranks wait, as many as the heap has room for, and all other jobs are as
      they were. */
  ghost predicate RanksWait(s: Sched, s': Sched, gid: string, req: GangRequest, now: int) {
    && |s'.queue| == |s.queue| + Room(s, Size(req))
    && (forall r: nat | r < Size(req) :: WaitsOrNot(s, s', gid, req, now, r))
    && (forall id | id in s.jobs :: id in s'.jobs && s'.jobs[id] == s.jobs[id])
    && (forall id | id in s'.jobs && id !in s.jobs :: exists r: nat :: r < Size(req) && id == gid + "-r" + Itoa(r))
  }

  lemma RankWaits(s: Sched, gid: string, req: GangRequest, now: int, r: nat)
    requires RanksUntracked(s, gid, 0) && r < Size(req)
    ensures WaitsOrNot(s, AdmitRanks(s, gid, req, 0, now), gid, req, now, r)
  {
    AdmitsFirst(s, gid, req, 0, now, r);
    NewIsRank(gid, req, r, now);
  }

  lemma AdmittedWait(s: Sched, gid: string, req: GangRequest, now: int)
    requires RanksUntracked(s, gid, 0)
    ensures RanksWait(s, AdmitRanks(s, gid, req, 0, now), gid, req, now)
  {
    var s' := AdmitRanks(s, gid, req, 0, now);
    AdmissionFills(s, gid, req, 0, now);
    AdmissionAdds(s, gid, req, 0, now);
    hide AdmitRanks, WaitsOrNot, Room, RanksUntracked, Itoa, IsRank;
    forall r: nat | r < Size(req) ensures WaitsOrNot(s, s', gid, req, now, r) {
      RankWaits(s, gid, req, now, r);
    }
    forall id | id in s'.jobs && id !in s.jobs
      ensures exists r: nat :: r < Size(req) && id == gid + "-r" + Itoa(r)
    {
      var r: nat :| r < Ranks(req) && id == RankId(gid, r) && IsRank(s'.jobs[id], gid, req, now, r);
    }
  }

  /** The registered group: PENDING since now, with its ranks in order. */
  ghost predicate Registered(g: GroupRec, gid: string, req: GangRequest, now: int) {
    && g == GroupRec(gid, g.jobIds, Size(req), req.job.need.gpus,
                     if req.masterPort == 0 then 29500 else req.masterPort, now, GroupPending)
    && |g.jobIds| == Size(req)
    && (forall r: nat | r < Size(req) :: g.jobIds[r] == gid + "-r" + Itoa(r))
  }

  lemma RegisterKeepsWaiting(s: Sched, s': Sched, gid: string, req: GangRequest, now: int, g: GroupRec)
    requires RanksWait(s, s', gid, req, now)
    ensures RanksWait(s, PutGroup(s', g), gid, req, now)
  {
    hide Rank, Room, Itoa;
    forall r: nat | r < Size(req) ensures WaitsOrNot(s, PutGroup(s', g), gid, req, now, r) {
      assert WaitsOrNot(s, s', gid, req, now, r);
    }
  }

  lemma GangIsRegistered(gid: string, req: GangRequest, now: int)
    ensures Registered(GangRec(gid, req, now), gid, req, now) && GangRec(gid, req, now).id == gid
  {
  }

  /** A gang is accepted exactly when all its ranks fit into the heap: then every rank
      waits and the group is PENDING.  Otherwise as many ranks wait as there is room
      for, and no group is registered. */
  lemma SubmittedGangWaits(m: Master, gid: string, req: GangRequest, now: int)
    requires FreshGroup(m.sched, gid, req)
    ensures var m' := SubmitGang(m, gid, req, now);
            && m' == m.(sched := m'.sched)
            && RanksWait(m.sched, m'.sched, gid, req, now)
            && if m.sched.maxQueueSize <= 0 || |m.sched.queue| + Size(req) <= m.sched.maxQueueSize
               then gid in m'.sched.groups && m'.sched.groups == m.sched.groups[gid := m'.sched.groups[gid]]
                    && Registered(m'.sched.groups[gid], gid, req, now)
               else m'.sched.groups == m.sched.groups
  {
    FreshRanks(m.sched, gid, req);
    AdmittedIfRoom(m.sched, gid, req, 0, now);
    AdmittedWait(m.sched, gid, req, now);
    AdmissionAdds(m.sched, gid, req, 0, now);
    GangIsRegistered(gid, req, now);
    RegisterKeepsWaiting(m.sched, AdmitRanks(m.sched, gid, req, 0, now), gid, req, now, GangRec(gid, req, now));
    hide AdmitRanks, AllAdmitted, RanksWait, FreshGroup, RanksUntracked, AddsRanks, Registered, GangRec;
  }
}
