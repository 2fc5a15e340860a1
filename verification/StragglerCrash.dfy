/** A crash can leave an image that is no initial state: a run of six events after
    which the database holds a COMPLETED group and its only rank as QUEUED.  The
    writer saves a group as it is when the write is taken, so an old group write
    saves the new group state ahead of the rank's own writes. */
module StragglerCrash {
  import opened Types
  import opened Scheduling
  import opened MasterSteps
  import opened Placement
  import opened GangScheduling
  import opened Continuity
  import opened ContinuitySteps
  import opened Events
  import opened Runs
  import opened GangOutcome
  import GroupLifecycle
  import opened Lives

  // ---------- the last two steps ----------

  /** The rank runs as the last of its gang; the writer's next operation is a write
      of the group; the database still holds the rank as QUEUED. */
  ghost predicate GroupWriteAhead(m: Master, id: string, gid: string) {
    && InState(m.sched, id, Running) && m.sched.jobs[id].spec.groupId == gid && gid != ""
    && gid in m.sched.groups && m.sched.groups[gid].state == GroupRunning
    && (forall k | k in m.sched.groups[gid].jobIds && k != id :: GroupLifecycle.Stopped(m.sched, k))
    && m.sched.writes != [] && m.sched.writes[0] == GroupWrite(gid)
    && id in m.saved.jobs && m.saved.jobs[id].state == Queued && m.saved.jobs[id].spec.groupId == gid
  }

  /** If the rank succeeds and the writer takes that operation, a crash leaves a
      straggler. */
  lemma CompletionOvertakes(m: Master, r: Result, now: int, gid: string)
    requires Sound(m.sched) && GroupWriteAhead(m, r.jobId, gid) && r.success
    ensures ReportGuarded(m, r, now).sched.writes != []
    ensures !NoStragglers(WriteOne(ReportGuarded(m, r, now)).saved)
  {
    var m' := ReportGuarded(m, r, now);
    GroupLifecycle.LastRankCompletesGang(m, r, now);
    ReportEvolves(m, r, now);
    assert m.sched.writes <= m'.sched.writes && m'.saved == m.saved;
    assert Straggles(WriteOne(m').saved.jobs[r.jobId], WriteOne(m').saved.groups);
  }

  // ---------- the run ----------

  /** A gang of one rank that the member can take on an empty ledger. */
  predicate OneRankSuits(cfg: Config, gid: string, req: GangRequest, x: Member) {
    && gid != "" && Ranks(req) == 1 && req.job.need.NonNegative()
    && x.name != "" && x.hasMeta && cfg.matches(req.job.requirement, x)
    && req.job.need.gpus <= x.total.gpus && req.job.need.cpus <= x.total.cpus && req.job.need.mem <= x.total.mem
  }

  function Rank0(gid: string, req: GangRequest, now: int): JobRec {
    NewJob(RankSpec(gid, req, 0, now))
  }

  function Submitted(gid: string, req: GangRequest, now: int): Master {
    SubmitGang(Fresh(0), gid, req, now)
  }

  lemma SubmittedIs(gid: string, req: GangRequest, now: int)
    requires Ranks(req) == 1
    ensures var m := Submitted(gid, req, now);
            && m == Fresh(0).(sched := m.sched)
            && m.sched.jobs == map[RankId(gid, 0) := Rank0(gid, req, now)]
            && m.sched.groups == map[gid := GangRec(gid, req, now)]
            && m.sched.writes == [JobWrite(RankId(gid, 0)), GroupWrite(gid)]
  {
    var s := Enqueue(NewSched(0), Rank0(gid, req, now));
    assert AdmitRanks(s, gid, req, 1, now) == s && AllAdmitted(s, gid, req, 1, now);
    assert AdmitRanks(NewSched(0), gid, req, 0, now) == s && AllAdmitted(NewSched(0), gid, req, 0, now);
  }

  /** The member joined and the writer took the rank's write. */
  function Stored0(gid: string, req: GangRequest, now: int, x: Member): Master {
    Submitted(gid, req, now).(
      members := [x],
      saved := Image(map[RankId(gid, 0) := Rank0(gid, req, now)], map[]),
      sched := Submitted(gid, req, now).sched.(writes := [GroupWrite(gid)]))
  }

  function Life(m: Master): Run {
    Newborn(0).(m := m)
  }

  lemma SubmissionStep(cfg: Config, gid: string, req: GangRequest, now: int, x: Member)
    requires OneRankSuits(cfg, gid, req, x)
    ensures Steps(cfg, Newborn(0), GangSubmitted(gid, req, now), Life(Submitted(gid, req, now)))
  {
    SubmittedIs(gid, req, now);
    assert NewlyRunning(Fresh(0), Submitted(gid, req, now)) == {};
  }

  lemma JoinStep(cfg: Config, gid: string, req: GangRequest, now: int, x: Member)
    requires OneRankSuits(cfg, gid, req, x)
    ensures Steps(cfg, Life(Submitted(gid, req, now)), MemberJoined(x), Life(Submitted(gid, req, now).(members := [x])))
  {
    SubmittedIs(gid, req, now);
    var m := Submitted(gid, req, now);
    assert m.members + [x] == [x];
    assert NewlyRunning(m, m.(members := [x])) == {};
  }

  lemma WriteStep(cfg: Config, gid: string, req: GangRequest, now: int, x: Member)
    requires OneRankSuits(cfg, gid, req, x)
    ensures Steps(cfg, Life(Submitted(gid, req, now).(members := [x])), WroteBack, Life(Stored0(gid, req, now, x)))
  {
    SubmittedIs(gid, req, now);
    var m := Submitted(gid, req, now).(members := [x]);
    assert m.sched.writes[1..] == [GroupWrite(gid)];
    assert WriteOne(m) == Stored0(gid, req, now, x);
    assert NewlyRunning(m, Stored0(gid, req, now, x)) == {};
  }

  lemma StoredInv(cfg: Config, gid: string, req: GangRequest, now: int, x: Member)
    requires OneRankSuits(cfg, gid, req, x)
    ensures Inv(Life(Stored0(gid, req, now, x)))
  {
    NewbornInitial(0);
    InitialInv(Newborn(0));
    SubmissionStep(cfg, gid, req, now, x);
    JoinStep(cfg, gid, req, now, x);
    WriteStep(cfg, gid, req, now, x);
    hide Steps, Inv;
    StepInv(cfg, Newborn(0), GangSubmitted(gid, req, now), Life(Submitted(gid, req, now)));
    StepInv(cfg, Life(Submitted(gid, req, now)), MemberJoined(x), Life(Submitted(gid, req, now).(members := [x])));
    StepInv(cfg, Life(Submitted(gid, req, now).(members := [x])), WroteBack, Life(Stored0(gid, req, now, x)));
  }

  // ---------- the tick ----------

  lemma GangIsReady(cfg: Config, gid: string, req: GangRequest, now: int, x: Member)
    requires OneRankSuits(cfg, gid, req, x)
    ensures var m := Stored0(gid, req, now, x);
            Ready(m, GangRec(gid, req, now), cfg.matches, now) && PendingNow(m.sched, GangRec(gid, req, now))
  {
    SubmittedIs(gid, req, now);
    var m := Stored0(gid, req, now, x);
    var g := GangRec(gid, req, now);
    assert g.jobIds == [RankId(gid, 0)];
    var ranks := QueuedAmong(m.sched, g.jobIds);
    assert ranks == [Rank0(gid, req, now)] by {
      assert g.jobIds[1..] == [];
      assert QueuedAmong(m.sched, []) == [];
    }
    assert x in m.members;
    assert Assigns(m.breaker, m.ledger, cfg.matches, ranks, m.members, now, [x]);
  }

  /** The gang started, and the tick left database and channel alone but for new
      writes behind the old one. */
  ghost predicate Ticked0(m: Master, m': Master, id: string, gid: string)
    requires id in m.sched.jobs && gid in m.sched.groups
  {
    && InState(m'.sched, id, Running) && m'.sched.jobs[id].spec == m.sched.jobs[id].spec
    && m'.sched.groups == map[gid := m.sched.groups[gid].(state := GroupRunning)]
    && m'.saved == m.saved && m.sched.writes <= m'.sched.writes
  }

  lemma FirstRankStarts(m: Master, m': Master, g: GroupRec, matches: Matcher, now: int, nodes: seq<Member>)
    requires GangStarts(m, m', g, matches, now, nodes)
    ensures var ranks := QueuedAmong(m.sched, g.jobIds);
            && |ranks| == |nodes| == |g.jobIds| > 0
            && RankRuns(m', ranks[0], nodes[0], now) && m'.sched.jobs.Keys == m.sched.jobs.Keys
            && m'.sched.groups == m.sched.groups[g.id := g.(state := GroupRunning)]
  {
    hide QueuedAmong, Assigns, Greedy, Payloads, ChargedOnce;
  }

  lemma GangStartsAlone(m: Master, m': Master, g: GroupRec, matches: Matcher, now: int)
    requires SomeGangStarts(m, m', g, matches, now) && |g.jobIds| == 1 && Sound(m.sched)
    requires m.sched.jobs.Keys == {g.jobIds[0]} && m.sched.groups == map[g.id := g]
    ensures InState(m'.sched, g.jobIds[0], Running) && m'.sched.jobs.Keys == {g.jobIds[0]}
    ensures m'.sched.jobs[g.jobIds[0]].spec == m.sched.jobs[g.jobIds[0]].spec
    ensures m'.sched.groups == map[g.id := g.(state := GroupRunning)]
  {
    hide GangStarts, QueuedAmong, Sound, RankRuns, InState;
    var nodes :| GangStarts(m, m', g, matches, now, nodes);
    FirstRankStarts(m, m', g, matches, now, nodes);
    FirstRankIs(m.sched, g.jobIds);
    RunsNow(m', QueuedAmong(m.sched, g.jobIds)[0], nodes[0], now);
  }

  lemma RunsNow(m': Master, rank: JobRec, node: Member, now: int)
    requires RankRuns(m', rank, node, now)
    ensures InState(m'.sched, rank.spec.id, Running) && rank.spec.id in m'.sched.jobs
    ensures m'.sched.jobs[rank.spec.id].spec == rank.spec
  {
  }

  lemma FirstRankIs(s: Sched, ids: seq<string>)
    requires Sound(s) && |ids| > 0 && |QueuedAmong(s, ids)| == |ids|
    ensures ids[0] in s.jobs && QueuedAmong(s, ids)[0] == s.jobs[ids[0]] && s.jobs[ids[0]].spec.id == ids[0]
  {
    AllQueued(s, ids);
    hide QueuedAmong;
  }

  lemma HeapIsEmpty(jobs: Jobs, queue: seq<JobSpec>, id: string)
    requires HeapExact(jobs, queue) && jobs.Keys == {id} && jobs[id].state != Queued
    ensures queue == []
  {
    forall x ensures x !in multiset(queue) {
      assert x in multiset(queue) ==> x.id == id;
    }
    assert multiset(queue) == multiset{};
    assert |queue| == |multiset(queue)|;
  }

  /** With the only job running the heap is empty, so nothing else starts. */
  lemma NothingElse(m: Master, id: string, matches: Matcher, now: int)
    requires Core(m) && m.sched.jobs.Keys == {id} && InState(m.sched, id, Running)
    ensures SinglePhase(m, matches, now) == m
  {
    HeapIsEmpty(m.sched.jobs, m.sched.queue, id);
  }

  lemma PhaseOfOne(m: Master, g: GroupRec, matches: Matcher, now: int)
    requires g.numNodes >= 1 && !TimedOut(g, now)
    ensures GangPhase(m, [g], matches, now) == TryGang(m, g, matches, now)
  {
    hide TryGang;
    assert [g][1..] == [];
    assert GangPhase(TryGang(m, g, matches, now), [], matches, now) == TryGang(m, g, matches, now);
  }

  lemma TickStartsGang(cfg: Config, gid: string, req: GangRequest, now: int, x: Member)
    requires OneRankSuits(cfg, gid, req, x)
    ensures var m := Stored0(gid, req, now, x);
            var g := GangRec(gid, req, now);
            && GangPhase(m, [g], cfg.matches, now) == TryGang(m, g, cfg.matches, now)
            && SomeGangStarts(m, TryGang(m, g, cfg.matches, now), g, cfg.matches, now)
            && Core(TryGang(m, g, cfg.matches, now))
  {
    var m := Stored0(gid, req, now, x);
    var g := GangRec(gid, req, now);
    StoredInv(cfg, gid, req, now, x);
    GangIsReady(cfg, gid, req, now, x);
    assert Static(m);
    hide Static, Ready, SomeGangStarts, Core, TryGang, Inv, GangPhase, Stored0, PendingNow, OneRankSuits;
    AllOrNothing(m, g, cfg.matches, now);
    PhaseOfOne(m, g, cfg.matches, now);
  }

  /** With one gang and no other job the whole tick is the dispatch of the gang. */
  lemma LoneTick(m: Master, m': Master, g: GroupRec, id: string, matches: Matcher, now: int)
    requires g.numNodes >= 1 && GangPhase(m, [g], matches, now) == m' && g.jobIds == [id]
    requires SomeGangStarts(m, m', g, matches, now) && Sound(m.sched) && Core(m')
    requires m.sched.jobs.Keys == {id} && m.sched.groups == map[g.id := g]
    ensures Tick(m, [g], matches, now) == m'
    ensures InState(m'.sched, id, Running) && m'.sched.jobs[id].spec == m.sched.jobs[id].spec
    ensures m'.sched.groups == map[g.id := g.(state := GroupRunning)]
  {
    hide SinglePhase, GangPhase, SomeGangStarts, Sound, Core;
    GangStartsAlone(m, m', g, matches, now);
    NothingElse(m', id, matches, now);
  }

  lemma LoneGang(gid: string, req: GangRequest, now: int, x: Member)
    requires Ranks(req) == 1
    ensures var m := Stored0(gid, req, now, x);
            m.sched.jobs.Keys == {RankId(gid, 0)} && m.sched.groups == map[gid := GangRec(gid, req, now)]
    ensures GangRec(gid, req, now).jobIds == [RankId(gid, 0)]
  {
    SubmittedIs(gid, req, now);
  }

  lemma TickIsGang(cfg: Config, gid: string, req: GangRequest, now: int, x: Member)
    requires OneRankSuits(cfg, gid, req, x)
    ensures var m := Stored0(gid, req, now, x);
            var g := GangRec(gid, req, now);
            var m' := Tick(m, [g], cfg.matches, now);
            && m.sched.jobs.Keys == {RankId(gid, 0)} && m.sched.groups == map[gid := g]
            && InState(m'.sched, RankId(gid, 0), Running)
            && m'.sched.jobs[RankId(gid, 0)].spec == m.sched.jobs[RankId(gid, 0)].spec
            && m'.sched.groups == map[gid := g.(state := GroupRunning)]
  {
    var m := Stored0(gid, req, now, x);
    StoredInv(cfg, gid, req, now, x);
    TickStartsGang(cfg, gid, req, now, x);
    LoneGang(gid, req, now, x);
    assert Sound(m.sched);
    hide Inv, Core, SomeGangStarts, TryGang, GangPhase, Sound, Tick, Stored0;
    LoneTick(m, TryGang(m, GangRec(gid, req, now), cfg.matches, now), GangRec(gid, req, now), RankId(gid, 0),
             cfg.matches, now);
  }

  lemma OnlyPending(s: Sched, g: GroupRec)
    requires s.groups == map[g.id := g] && g.state == GroupPending
    ensures ListsPending(s, [g])
  {
  }

  lemma TickOutcome(cfg: Config, gid: string, req: GangRequest, now: int, x: Member)
    requires OneRankSuits(cfg, gid, req, x)
    ensures var m := Stored0(gid, req, now, x);
            var g := GangRec(gid, req, now);
            && ListsPending(m.sched, [g]) && RankId(gid, 0) in m.sched.jobs && gid in m.sched.groups
            && Ticked0(m, Tick(m, [g], cfg.matches, now), RankId(gid, 0), gid)
  {
    var m := Stored0(gid, req, now, x);
    var g := GangRec(gid, req, now);
    TickIsGang(cfg, gid, req, now, x);
    StoredInv(cfg, gid, req, now, x);
    OnlyPending(m.sched, g);
    assert RankId(gid, 0) in m.sched.jobs.Keys;
    hide Static, Tick, ListsPending;
    TickKeeps(m, [g], cfg.matches, now);
  }

  // ---------- the whole run ----------

  /** The run after the tick. */
  ghost function Running0(cfg: Config, gid: string, req: GangRequest, now: int, x: Member): Run
    requires OneRankSuits(cfg, gid, req, x)
  {
    var m := Stored0(gid, req, now, x);
    TickOutcome(cfg, gid, req, now, x);
    Next(cfg, Life(m), Ticked([GangRec(gid, req, now)], now))
  }

  lemma RunningAhead(cfg: Config, gid: string, req: GangRequest, now: int, x: Member)
    requires OneRankSuits(cfg, gid, req, x)
    ensures var r := Running0(cfg, gid, req, now, x);
            && Steps(cfg, Life(Stored0(gid, req, now, x)), Ticked([GangRec(gid, req, now)], now), r)
            && Inv(r) && GroupWriteAhead(r.m, RankId(gid, 0), gid)
  {
    var m := Stored0(gid, req, now, x);
    var e := Ticked([GangRec(gid, req, now)], now);
    var r := Running0(cfg, gid, req, now, x);
    TickOutcome(cfg, gid, req, now, x);
    StoredInv(cfg, gid, req, now, x);
    SubmittedIs(gid, req, now);
    StepInv(cfg, Life(m), e, r);
    assert r.m == Tick(m, [GangRec(gid, req, now)], cfg.matches, now);
    AheadAfterTick(m, r.m, gid, req, now, x);
  }

  lemma AheadAfterTick(m: Master, m': Master, gid: string, req: GangRequest, now: int, x: Member)
    requires m == Stored0(gid, req, now, x) && Ranks(req) == 1 && gid != ""
    requires RankId(gid, 0) in m.sched.jobs && gid in m.sched.groups
    requires Ticked0(m, m', RankId(gid, 0), gid)
    ensures GroupWriteAhead(m', RankId(gid, 0), gid)
  {
    SubmittedIs(gid, req, now);
    assert GangRec(gid, req, now).jobIds == [RankId(gid, 0)];
    assert m.sched.writes[0] == GroupWrite(gid) && m'.sched.writes[0] == m.sched.writes[0];
  }

  function Success(id: string, node: string): Result {
    Result(id, true, "", "", node)
  }

  /** The rank reports. */
  lemma ReportStep(cfg: Config, r: Run, id: string, gid: string, node: string, now: int)
    requires GroupWriteAhead(r.m, id, gid)
    ensures var e := Reported(Success(id, node), now);
            Possible(r.m, e) && Next(cfg, r, e).m == ReportGuarded(r.m, Success(id, node), now)
  {
    hide ReportGuarded;
  }

  /** The writer takes its next operation. */
  lemma WriterStep(cfg: Config, r: Run)
    requires r.m.sched.writes != []
    ensures Possible(r.m, WroteBack) && Next(cfg, r, WroteBack).m == WriteOne(r.m)
  {
    hide WriteOne;
  }

  lemma LastSteps(cfg: Config, r: Run, id: string, gid: string, node: string, now: int)
    requires Inv(r) && GroupWriteAhead(r.m, id, gid)
    ensures var e := Reported(Success(id, node), now);
            && Possible(r.m, e) && Possible(Next(cfg, r, e).m, WroteBack)
            && Steps(cfg, r, e, Next(cfg, r, e))
            && Steps(cfg, Next(cfg, r, e), WroteBack, Next(cfg, Next(cfg, r, e), WroteBack))
            && !NoStragglers(Next(cfg, Next(cfg, r, e), WroteBack).m.saved)
  {
    assert Sound(r.m.sched);
    hide Possible, Next, GroupWriteAhead, ReportGuarded, WriteOne, NoStragglers, Inv, Sound;
    ReportStep(cfg, r, id, gid, node, now);
    CompletionOvertakes(r.m, Success(id, node), now, gid);
    WriterStep(cfg, Next(cfg, r, Reported(Success(id, node), now)));
  }

  /** Some run from an empty database leaves a straggler. */
  ghost predicate LeavesStraggler(cfg: Config) {
    exists es: seq<Event>, rs: seq<Run> ::
      IsRun(cfg, es, rs) && rs[0] == Newborn(0) && |es| == 6 && !NoStragglers(rs[6].m.saved)
  }

  ghost predicate SixSteps(cfg: Config, es: seq<Event>, rs: seq<Run>) {
    && |es| == 6 && |rs| == 7
    && Steps(cfg, rs[0], es[0], rs[1]) && Steps(cfg, rs[1], es[1], rs[2]) && Steps(cfg, rs[2], es[2], rs[3])
    && Steps(cfg, rs[3], es[3], rs[4]) && Steps(cfg, rs[4], es[4], rs[5]) && Steps(cfg, rs[5], es[5], rs[6])
  }

  lemma SixStepsRun(cfg: Config, es: seq<Event>, rs: seq<Run>)
    requires SixSteps(cfg, es, rs) && rs[0] == Newborn(0) && !NoStragglers(rs[6].m.saved)
    ensures LeavesStraggler(cfg)
  {
    NewbornInitial(0);
    hide Steps, Initial, NoStragglers;
    forall i | 0 <= i < |es| ensures Steps(cfg, rs[i], es[i], rs[i + 1]) {
      assert i == 0 || i == 1 || i == 2 || i == 3 || i == 4 || i == 5;
    }
    assert IsRun(cfg, es, rs);
  }

  /** After four such steps the last two can follow. */
  lemma Completed(cfg: Config, es: seq<Event>, rs: seq<Run>, id: string, gid: string, node: string, now: int)
    requires |es| == 4 && |rs| == 5 && rs[0] == Newborn(0)
    requires Steps(cfg, rs[0], es[0], rs[1]) && Steps(cfg, rs[1], es[1], rs[2])
    requires Steps(cfg, rs[2], es[2], rs[3]) && Steps(cfg, rs[3], es[3], rs[4])
    requires Inv(rs[4]) && GroupWriteAhead(rs[4].m, id, gid)
    ensures LeavesStraggler(cfg)
  {
    hide Inv, GroupWriteAhead, Newborn, NoStragglers, Next, Possible, LeavesStraggler, Steps, Success;
    LastSteps(cfg, rs[4], id, gid, node, now);
    var report := Reported(Success(id, node), now);
    var r5 := Next(cfg, rs[4], report);
    var r6 := Next(cfg, r5, WroteBack);
    SixStepsRun(cfg, es + [report, WroteBack], rs + [r5, r6]);
  }

  /** A one-rank gang is submitted, a member that suits it joins, the writer takes
      the rank's write, a tick starts the gang, the rank succeeds, the writer takes
      the group's first write: the database now holds the group as COMPLETED and the
      rank as QUEUED. */
  lemma CrashLeavesStraggler(cfg: Config, gid: string, req: GangRequest, now: int, x: Member)
    requires OneRankSuits(cfg, gid, req, x)
    ensures LeavesStraggler(cfg)
  {
    hide Steps, Inv, GroupWriteAhead, Running0, Life, Submitted, Stored0, Newborn, LeavesStraggler, OneRankSuits,
      RankId;
    SubmissionStep(cfg, gid, req, now, x);
    JoinStep(cfg, gid, req, now, x);
    WriteStep(cfg, gid, req, now, x);
    RunningAhead(cfg, gid, req, now, x);
    Completed(cfg,
              [GangSubmitted(gid, req, now), MemberJoined(x), WroteBack, Ticked([GangRec(gid, req, now)], now)],
              [Newborn(0), Life(Submitted(gid, req, now)), Life(Submitted(gid, req, now).(members := [x])),
               Life(Stored0(gid, req, now, x)), Running0(cfg, gid, req, now, x)],
              RankId(gid, 0), gid, x.name, now);
  }
}
