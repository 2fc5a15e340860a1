/** The unguarded report to the end, group completion included.  Cancelling the
    siblings of a rank could repair a ledger that its report broke, if one of them ran
    on the same node.  None does: the ranks of a group are spread over distinct nodes,
    in every state of every run.  So the condition for the invariant to survive is the
    same with and without group completion. */
module RankReports {
  import opened Types
  import opened HeapOrder
  import opened Scheduling
  import opened Ledger
  import opened MasterSteps
  import opened Placement
  import opened CoreSteps
  import opened Continuity
  import opened ContinuitySteps
  import opened Groups
  import opened GangOutcome
  import opened DispatchTick
  import opened Events
  import opened Runs
  import opened GangScheduling
  import opened Safety
  import opened StuckRanks
  import opened ReportDelivery
  import opened GroupLifecycle

  // ---------- ranks on distinct nodes ----------

  /** Two ranks of one group. */
  predicate Siblings(a: JobRec, b: JobRec) {
    a.spec.groupId != "" && a.spec.groupId == b.spec.groupId
  }

  /** Siblings hold, or held last, different nodes. */
  predicate OffNode(a: JobRec, b: JobRec) {
    Siblings(a, b) && a.worker != "" ==> a.worker != b.worker
  }

  ghost predicate SpreadOut(s: Sched) {
    forall a, b | a in s.jobs && b in s.jobs && a != b :: OffNode(s.jobs[a], s.jobs[b])
  }

  lemma SpreadStays(s: Sched, s': Sched)
    requires SpreadOut(s) && NoneStarts(s, s')
    requires forall id | id in s.jobs :: id in s'.jobs && s'.jobs[id].spec == s.jobs[id].spec
    ensures SpreadOut(s')
  {
    forall a, b | a in s'.jobs && b in s'.jobs && a != b ensures OffNode(s'.jobs[a], s'.jobs[b]) {
      if a in s.jobs && b in s.jobs {
        assert OffNode(s.jobs[a], s.jobs[b]);
      }
    }
  }

  /** The index of a rank in its group's list, or the list's length for other jobs. */
  function RankIndex(ids: seq<string>, id: string): (i: nat)
    ensures i <= |ids|
    ensures i < |ids| ==> ids[i] == id
    ensures i == |ids| ==> id !in ids
  {
    if ids == [] || ids[0] == id then 0 else 1 + RankIndex(ids[1..], id)
  }

  /** Where the job is after the gang was started on the nodes. */
  predicate Seated(m: Master, m': Master, g: GroupRec, nodes: seq<Member>, id: string)
    requires |nodes| == |g.jobIds| && id in m.sched.jobs && id in m'.sched.jobs
  {
    && m'.sched.jobs[id].spec == m.sched.jobs[id].spec
    && var i := RankIndex(g.jobIds, id);
       if i < |nodes| then m'.sched.jobs[id].worker == nodes[i].name && m'.sched.jobs[id].spec.groupId == g.id
       else m'.sched.jobs[id] == m.sched.jobs[id] && m'.sched.jobs[id].spec.groupId != g.id
  }

  lemma RankSeated(m: Master, m': Master, g: GroupRec, matches: Matcher, now: int, nodes: seq<Member>, i: nat)
    requires Shape(m.sched) && PendingNow(m.sched, g) && GangStarts(m, m', g, matches, now, nodes) && i < |nodes|
    ensures |nodes| == |g.jobIds| && g.jobIds[i] in m.sched.jobs && g.jobIds[i] in m'.sched.jobs
    ensures m'.sched.jobs[g.jobIds[i]].spec == m.sched.jobs[g.jobIds[i]].spec
    ensures m'.sched.jobs[g.jobIds[i]].worker == nodes[i].name && m'.sched.jobs[g.jobIds[i]].spec.groupId == g.id
  {
    var ranks := QueuedAmong(m.sched, g.jobIds);
    QueuedRanksBelong(m.sched, g.id);
    QueuedAmongWaits(m.sched, g.jobIds);
    hide Assigns, Greedy, ChargedOnce, Payloads, QueuedAmong, Shape;
    assert ranks[i] in ranks && RankRuns(m', ranks[i], nodes[i], now);
  }

  lemma OtherStays(m: Master, m': Master, g: GroupRec, matches: Matcher, now: int, nodes: seq<Member>, id: string)
    requires Shape(m.sched) && PendingNow(m.sched, g) && GangStarts(m, m', g, matches, now, nodes)
    requires id in m'.sched.jobs && id !in g.jobIds
    ensures id in m.sched.jobs && m'.sched.jobs[id] == m.sched.jobs[id] && m'.sched.jobs[id].spec.groupId != g.id
  {
    var ranks := QueuedAmong(m.sched, g.jobIds);
    assert Enrolled(m.sched.jobs[id].spec, m.sched.groups);
    hide Assigns, Greedy, ChargedOnce, Payloads, QueuedAmong, Shape, RankRuns;
    assert NoRank(ranks, id);
  }

  lemma StartedWhere(m: Master, m': Master, g: GroupRec, matches: Matcher, now: int, nodes: seq<Member>, id: string)
    requires Shape(m.sched) && PendingNow(m.sched, g) && GangStarts(m, m', g, matches, now, nodes)
    requires id in m'.sched.jobs
    ensures id in m.sched.jobs && |nodes| == |g.jobIds| && Seated(m, m', g, nodes, id)
  {
    assert |nodes| == |g.jobIds|;
    hide Shape, PendingNow, GangStarts;
    if RankIndex(g.jobIds, id) < |nodes| {
      RankSeated(m, m', g, matches, now, nodes, RankIndex(g.jobIds, id));
    } else {
      OtherStays(m, m', g, matches, now, nodes, id);
    }
  }

  lemma NodesDistinct(m: Master, m': Master, g: GroupRec, matches: Matcher, now: int, nodes: seq<Member>)
    requires GangStarts(m, m', g, matches, now, nodes)
    ensures forall i, j | 0 <= i < j < |nodes| :: nodes[i].name != nodes[j].name
  {
    hide Greedy, RanksStart, QueuedAmong, Takes;
  }

  lemma SeatedOffNode(m: Master, m': Master, g: GroupRec, nodes: seq<Member>, a: string, b: string)
    requires |nodes| == |g.jobIds| && forall i, j | 0 <= i < j < |nodes| :: nodes[i].name != nodes[j].name
    requires a in m.sched.jobs && a in m'.sched.jobs && b in m.sched.jobs && b in m'.sched.jobs && a != b
    requires Seated(m, m', g, nodes, a) && Seated(m, m', g, nodes, b)
    requires OffNode(m.sched.jobs[a], m.sched.jobs[b])
    ensures OffNode(m'.sched.jobs[a], m'.sched.jobs[b])
  {
  }

  lemma StartedOffNode(m: Master, m': Master, g: GroupRec, matches: Matcher, now: int, nodes: seq<Member>, a: string,
                       b: string)
    requires Shape(m.sched) && PendingNow(m.sched, g) && GangStarts(m, m', g, matches, now, nodes)
    requires SpreadOut(m.sched) && a in m'.sched.jobs && b in m'.sched.jobs && a != b
    ensures OffNode(m'.sched.jobs[a], m'.sched.jobs[b])
  {
    hide Shape, PendingNow, GangStarts, Seated, OffNode;
    NodesDistinct(m, m', g, matches, now, nodes);
    StartedWhere(m, m', g, matches, now, nodes, a);
    StartedWhere(m, m', g, matches, now, nodes, b);
    SeatedOffNode(m, m', g, nodes, a, b);
  }

  /** When a gang starts, its ranks get distinct nodes and nobody else moves. */
  lemma GangStartSpreads(m: Master, m': Master, g: GroupRec, matches: Matcher, now: int)
    requires Shape(m.sched) && PendingNow(m.sched, g) && SpreadOut(m.sched)
    requires SomeGangStarts(m, m', g, matches, now)
    ensures SpreadOut(m'.sched)
  {
    var nodes :| GangStarts(m, m', g, matches, now, nodes);
    hide Shape, PendingNow, GangStarts, OffNode;
    forall a, b | a in m'.sched.jobs && b in m'.sched.jobs && a != b
      ensures OffNode(m'.sched.jobs[a], m'.sched.jobs[b])
    {
      StartedOffNode(m, m', g, matches, now, nodes, a, b);
    }
  }

  lemma TryGangSpreads(m: Master, g: GroupRec, matches: Matcher, now: int)
    requires g.numNodes >= 1 && Static(m) && PendingNow(m.sched, g) && SpreadOut(m.sched)
    ensures SpreadOut(TryGang(m, g, matches, now).sched)
  {
    assert Shape(m.sched);
    hide Static, Shape, TryGang, Ready, SomeGangStarts, SpreadOut;
    AllOrNothing(m, g, matches, now);
    if Ready(m, g, matches, now) {
      GangStartSpreads(m, TryGang(m, g, matches, now), g, matches, now);
    }
  }

  lemma {:induction false} CancelRanksStartsNone(s: Sched, ids: seq<string>, now: int)
    requires Sound(s)
    ensures NoneStarts(s, CancelRanks(s, ids, now))
    decreases |ids|
  {
    if ids != [] {
      CancelStartsNobody(s, ids[0], now);
      hide Cancel, Sound;
      CancelRanksStartsNone(Cancel(s, ids[0], now), ids[1..], now);
      NoneStartsTrans(s, Cancel(s, ids[0], now), CancelRanks(s, ids, now));
    }
  }

  lemma GangTickSpreads(m: Master, g: GroupRec, matches: Matcher, now: int)
    requires g.numNodes >= 1 && Static(m) && PendingNow(m.sched, g) && SpreadOut(m.sched)
    ensures SpreadOut(GangTick(m, g, matches, now).sched)
  {
    assert Sound(m.sched) && GangShaped(g);
    if TimedOut(g, now) {
      CancelRanksStartsNone(m.sched, g.jobIds, now);
      GangTickSteady(m, g, matches, now);
      hide Static, SpreadOut, Evolves;
      EvolvesKeeps(m.sched, GangTick(m, g, matches, now).sched);
      SpreadStays(m.sched, GangTick(m, g, matches, now).sched);
    } else {
      hide TryGang, Static, SpreadOut;
      TryGangSpreads(m, g, matches, now);
    }
  }

  lemma GangTickStatic(m: Master, g: GroupRec, matches: Matcher, now: int)
    requires g.numNodes >= 1 && Static(m) && PendingNow(m.sched, g)
    ensures Static(GangTick(m, g, matches, now)) && Sound(m.sched)
  {
    assert GangShaped(g);
    hide GangTick;
    GangTickCore(m, g, matches, now);
    GangTickOk(m, g, matches, now);
    GangTickSteady(m, g, matches, now);
    ShapeStays(m.sched, GangTick(m, g, matches, now).sched);
  }

  lemma {:induction false} GangPhaseSpreads(m: Master, gs: seq<GroupRec>, matches: Matcher, now: int)
    requires (forall g | g in gs :: g.numNodes >= 1) && AllPending(m.sched, gs) && Static(m) && SpreadOut(m.sched)
    ensures SpreadOut(GangPhase(m, gs, matches, now).sched)
    decreases |gs|
  {
    if gs != [] {
      assert gs[0] in gs;
      GangTickStatic(m, gs[0], matches, now);
      hide Static, Sound, SpreadOut, GangTick;
      GangTickSpreads(m, gs[0], matches, now);
      AllPendingTail(m, gs, matches, now);
      GangPhaseSpreads(GangTick(m, gs[0], matches, now), gs[1..], matches, now);
    }
  }

  /** Single jobs have no siblings. */
  lemma RanksSpread(s: Sched, s': Sched)
    requires SpreadOut(s)
    requires forall id | id in s'.jobs && s'.jobs[id].spec.groupId != "" :: id in s.jobs && s'.jobs[id] == s.jobs[id]
    ensures SpreadOut(s')
  {
    forall a, b | a in s'.jobs && b in s'.jobs && a != b ensures OffNode(s'.jobs[a], s'.jobs[b]) {
      if Siblings(s'.jobs[a], s'.jobs[b]) {
        assert OffNode(s.jobs[a], s.jobs[b]);
      }
    }
  }

  lemma SingleSpreads(m: Master, matches: Matcher, now: int)
    requires Core(m) && Sound(m.sched) && SpreadOut(m.sched)
    ensures SpreadOut(SinglePhase(m, matches, now).sched)
  {
    var s' := SinglePhase(m, matches, now).sched;
    HeapHoldsQueued(m.sched);
    SinglePhaseSteady(m, matches, now);
    hide Core, SinglePhase, SpreadOut, Sound;
    forall id | id in s'.jobs && s'.jobs[id].spec.groupId != ""
      ensures id in m.sched.jobs && s'.jobs[id] == m.sched.jobs[id]
    {
      assert Follows(m.sched.jobs[id], s'.jobs[id]);
      SingleSparesRanks(m, matches, now, id);
    }
    RanksSpread(m.sched, s');
  }

  lemma TickSpreads(m: Master, gs: seq<GroupRec>, matches: Matcher, now: int)
    requires Static(m) && ListsPending(m.sched, gs) && (forall g | g in gs :: g.numNodes >= 1) && SpreadOut(m.sched)
    ensures SpreadOut(Tick(m, gs, matches, now).sched)
  {
    var mid := GangPhase(m, gs, matches, now);
    PendingListed(m, gs);
    GangPhaseSteady(m, gs, matches, now);
    SoundStays(m.sched, mid.sched);
    hide Static, SpreadOut, GangPhase, Conserves, SingleOnTop, Sound;
    GangPhaseSpreads(m, gs, matches, now);
    TickPhases(m, gs, matches, now);
    SingleSpreads(mid, matches, now);
  }

  /** Every event keeps the ranks of every group on distinct nodes. */
  lemma EventSpreads(cfg: Config, m: Master, e: Event)
    requires Static(m) && TimersOk(m) && Possible(m, e) && SpreadOut(m.sched)
    ensures SpreadOut(Apply(cfg, m, e).sched)
  {
    if e.Ticked? {
      hide Static, SpreadOut, Tick;
      TickSpreads(m, e.pending, cfg.matches, e.now);
    } else {
      assert Sound(m.sched);
      hide Static, SpreadOut, Sound, TimersOk, Possible, Apply, Effect, NoneStarts;
      EventKeeps(cfg, m, e);
      EffectKeeps(m, e, Apply(cfg, m, e));
      OnlyTicksStart(cfg, m, e);
      SpreadStays(m.sched, Apply(cfg, m, e).sched);
    }
  }

  lemma StepSpreads(cfg: Config, es: seq<Event>, rs: seq<Run>, i: nat)
    requires IsRun(cfg, es, rs) && i < |es| && SpreadOut(rs[i].m.sched)
    ensures SpreadOut(rs[i + 1].m.sched)
  {
    Reachable(cfg, es, rs, i);
    assert Steps(cfg, rs[i], es[i], rs[i + 1]);
    hide Static, TimersOk, SpreadOut, Possible, Apply, Initial;
    EventSpreads(cfg, rs[i].m, es[i]);
  }

  lemma StartSpread(cfg: Config, es: seq<Event>, rs: seq<Run>)
    requires IsRun(cfg, es, rs)
    ensures |rs| > 0 && SpreadOut(rs[0].m.sched)
  {
    InitialSpread(rs[0].m);
  }

  /** In every state of every run the ranks of every group are on distinct nodes. */
  lemma {:induction false} AlwaysSpread(cfg: Config, es: seq<Event>, rs: seq<Run>, i: nat)
    requires IsRun(cfg, es, rs) && i < |rs|
    ensures SpreadOut(rs[i].m.sched)
  {
    hide Steps, Initial, SpreadOut;
    if i == 0 {
      StartSpread(cfg, es, rs);
    } else {
      AlwaysSpread(cfg, es, rs, i - 1);
      StepSpreads(cfg, es, rs, i - 1);
    }
  }

  /** Queued jobs hold no node. */
  lemma InitialSpread(m: Master)
    requires Core(m) && forall id | id in m.sched.jobs :: m.sched.jobs[id].state == Queued
    ensures SpreadOut(m.sched)
  {
    forall id | id in m.sched.jobs ensures m.sched.jobs[id].worker == "" {
      assert WellPlaced(m.sched.jobs[id], m.members);
    }
  }

  // ---------- what cancelling the siblings cannot repair ----------

  lemma WithoutKeeps(q: seq<JobSpec>, id: string, x: JobSpec)
    requires x.id != id
    ensures multiset(Without(q, id))[x] == multiset(q)[x]
  {
    var p := Position(q, id);
    if p < |q| {
      RemoveTakesOne(q, p);
    }
  }

  /** The job keeps its record and its place in the heap. */
  ghost predicate Spared(s: Sched, s': Sched, k: string) {
    && k in s.jobs && k in s'.jobs && s'.jobs[k] == s.jobs[k]
    && multiset(s'.queue)[s.jobs[k].spec] == multiset(s.queue)[s.jobs[k].spec]
  }

  lemma CancelSpares(s: Sched, id: string, now: int, k: string)
    requires Sound(s) && k in s.jobs && k != id
    ensures Sound(Cancel(s, id, now)) && Spared(s, Cancel(s, id, now), k)
  {
    hide Without;
    WithoutKeeps(s.queue, id, s.jobs[k].spec);
  }

  /** Cancelling the siblings spares the rank that reported. */
  lemma {:induction false} SiblingsSpare(m: Master, ids: seq<string>, k: string, now: int)
    requires Sound(m.sched) && k in m.sched.jobs
    ensures Spared(m.sched, CancelSiblings(m, ids, k, now).sched, k)
    decreases |ids|
  {
    if ids != [] {
      if ids[0] == k {
        SiblingsSpare(m, ids[1..], k, now);
      } else {
        CancelledSched(m, ids[0], now);
        CancelSpares(m.sched, ids[0], now, k);
        hide CancelJob, Cancel, Sound;
        SiblingsSpare(CancelJob(m, ids[0], now), ids[1..], k, now);
      }
    }
  }

  lemma GroupReportSpares(m: Master, gid: string, k: string, success: bool, now: int)
    requires Sound(m.sched) && k in m.sched.jobs
    ensures Spared(m.sched, GroupReport(m, gid, k, success, now).sched, k)
  {
    if gid in m.sched.groups {
      SiblingsSpare(m, m.sched.groups[gid].jobIds, k, now);
    }
  }

  /** None of the tracked jobs among the ids, but the spared one, is on the node. */
  ghost predicate NoneThere(s: Sched, ids: seq<string>, spared: string, node: string) {
    forall id | id in ids && id in s.jobs && id != spared :: s.jobs[id].worker != node
  }

  lemma CancelElsewhere(m: Master, id: string, now: int, node: string)
    requires Sound(m.sched) && node != "" && (id in m.sched.jobs ==> m.sched.jobs[id].worker != node)
    ensures var m' := CancelJob(m, id, now);
            && Held(m'.ledger, node) == Held(m.ledger, node)
            && Load(m'.sched.jobs, node) == Load(m.sched.jobs, node)
  {
    if Cancellable(m.sched, id) {
      var job := m.sched.jobs[id];
      LoadUpdated(m.sched.jobs, id, job.(state := Cancelled, endTime := now), node);
      ReleaseSubtracts(m.ledger, job.worker, job.spec.need);
    }
  }

  lemma CancelMovesNobody(m: Master, id: string, now: int, ids: seq<string>, spared: string, node: string)
    requires Sound(m.sched) && NoneThere(m.sched, ids, spared, node)
    ensures Sound(CancelJob(m, id, now).sched) && NoneThere(CancelJob(m, id, now).sched, ids, spared, node)
  {
    hide Without;
  }

  /** Cancelling ranks elsewhere leaves the node's account alone, right or wrong. */
  lemma {:induction false} SiblingsElsewhere(m: Master, ids: seq<string>, spared: string, now: int, node: string)
    requires Sound(m.sched) && node != "" && NoneThere(m.sched, ids, spared, node)
    ensures var m' := CancelSiblings(m, ids, spared, now);
            && Held(m'.ledger, node) == Held(m.ledger, node)
            && Load(m'.sched.jobs, node) == Load(m.sched.jobs, node)
    decreases |ids|
  {
    if ids != [] {
      assert forall id | id in ids[1..] :: id in ids;
      if ids[0] == spared {
        SiblingsElsewhere(m, ids[1..], spared, now, node);
      } else {
        CancelElsewhere(m, ids[0], now, node);
        CancelMovesNobody(m, ids[0], now, ids[1..], spared, node);
        hide CancelJob, Sound, NoneThere, Held;
        SiblingsElsewhere(CancelJob(m, ids[0], now), ids[1..], spared, now, node);
      }
    }
  }

  // ---------- the whole report ----------

  /** The siblings of a rank, wherever it is, are not there. */
  lemma SiblingsAway(s: Sched, gid: string, k: string)
    requires Shape(s) && SpreadOut(s) && gid in s.groups && RankOfGroup(s, k, gid)
    ensures s.jobs[k].worker != "" ==> NoneThere(s, s.groups[gid].jobIds, k, s.jobs[k].worker)
  {
    var ids := s.groups[gid].jobIds;
    if s.jobs[k].worker != "" {
      forall id | id in ids && id in s.jobs && id != k ensures s.jobs[id].worker != s.jobs[k].worker {
        assert RanksOf(s.jobs, s.groups[gid]);
        var i :| 0 <= i < |ids| && ids[i] == id;
        assert OffNode(s.jobs[k], s.jobs[id]);
      }
    }
  }

  lemma GroupReportElsewhere(m: Master, gid: string, k: string, success: bool, now: int, node: string)
    requires Sound(m.sched) && node != ""
    requires gid in m.sched.groups ==> NoneThere(m.sched, m.sched.groups[gid].jobIds, k, node)
    ensures var m' := GroupReport(m, gid, k, success, now);
            && Held(m'.ledger, node) == Held(m.ledger, node)
            && Load(m'.sched.jobs, node) == Load(m.sched.jobs, node)
  {
    if gid in m.sched.groups {
      SiblingsElsewhere(m, m.sched.groups[gid].jobIds, k, now, node);
    }
  }

  lemma BrokenAccount(m: Master, r: Result, now: int)
    requires Core(m) && r.jobId in m.sched.jobs && Finished(m.sched.jobs[r.jobId]) && !PlacementSpared(m, r.jobId)
    ensures var node := m.sched.jobs[r.jobId].worker;
            var settled := Settle(m, r, now);
            node != "" && Held(settled.ledger, node) != Load(settled.sched.jobs, node)
  {
    var job := m.sched.jobs[r.jobId];
    SettleEffect(m, r, now);
    LoadNonNegative(m.sched.jobs, job.worker);
    LoadUpdated(m.sched.jobs, r.jobId, Resettled(job, r, now), job.worker);
    assert Held(m.ledger, job.worker) == Load(m.sched.jobs, job.worker);
    ReleaseIdles(m.ledger, job);
  }

  lemma SettledSpecs(m: Master, r: Result, now: int)
    requires Sound(m.sched) && r.jobId in m.sched.jobs
    ensures var s' := Settle(m, r, now).sched;
            && s'.groups == m.sched.groups && s'.jobs.Keys == m.sched.jobs.Keys
            && (forall id | id in m.sched.jobs :: s'.jobs[id].spec == m.sched.jobs[id].spec)
            && s'.jobs[r.jobId].worker == m.sched.jobs[r.jobId].worker
  {
    hide Settle, Retries;
    SettleTimers(m, r, now);
  }

  /** Reports give nobody a node. */
  lemma SettleSpreads(m: Master, r: Result, now: int)
    requires Static(m) && SpreadOut(m.sched) && r.jobId in m.sched.jobs
    ensures var s' := Settle(m, r, now).sched;
            && Sound(s') && Shape(s') && SpreadOut(s')
            && r.jobId in s'.jobs && s'.jobs[r.jobId].spec == m.sched.jobs[r.jobId].spec
            && s'.jobs[r.jobId].worker == m.sched.jobs[r.jobId].worker
  {
    var s' := Settle(m, r, now).sched;
    assert Sound(m.sched) && Shape(m.sched);
    hide Static, Settle, Shape, SpreadOut, NoneStarts, Retries, Sound;
    SettledSpecs(m, r, now);
    ShapeBySpecs(m.sched, s');
    SettleStarts(m, r, now);
    SpreadStays(m.sched, s');
  }

  lemma NotBalanced(m: Master, node: string)
    requires Held(m.ledger, node) != Load(m.sched.jobs, node)
    ensures !Core(m)
  {
  }

  lemma RankCompletes(m: Master, r: Result, now: int, gid: string)
    requires Sound(m.sched) && RankOfGroup(m.sched, r.jobId, gid)
    ensures ReportAsWritten(m, r, now) == GroupReport(Settle(m, r, now), gid, r.jobId, r.success, now)
  {
    SettleTimers(m, r, now);
  }

  /** A second release is noticed on its node, and nowhere repaired. */
  lemma BrokenAccountStays(m: Master, r: Result, now: int)
    requires Static(m) && SpreadOut(m.sched) && r.jobId in m.sched.jobs && Finished(m.sched.jobs[r.jobId])
    requires m.sched.jobs[r.jobId].spec.groupId != "" && !PlacementSpared(m, r.jobId)
    ensures !Core(ReportAsWritten(m, r, now))
  {
    var job := m.sched.jobs[r.jobId];
    var gid := job.spec.groupId;
    var settled := Settle(m, r, now);
    assert Core(m) && Sound(m.sched);
    hide Static, Core, Sound, Settle, GroupReport, ReportAsWritten, Held, SpreadOut, Shape, NoneThere, PlacementSpared;
    BrokenAccount(m, r, now);
    SettleSpreads(m, r, now);
    RankCompletes(m, r, now, gid);
    if gid in settled.sched.groups {
      SiblingsAway(settled.sched, gid, r.jobId);
    }
    GroupReportElsewhere(settled, gid, r.jobId, r.success, now, job.worker);
    NotBalanced(ReportAsWritten(m, r, now), job.worker);
  }

  /** A waiting rank that is settled stays in the heap. */
  lemma QueuedRankReport(m: Master, r: Result, now: int)
    requires Core(m) && Sound(m.sched) && InState(m.sched, r.jobId, Queued)
    ensures !Core(ReportAsWritten(m, r, now))
  {
    var spec := m.sched.jobs[r.jobId].spec;
    var settled := Settle(m, r, now);
    assert multiset(m.sched.queue)[spec] == 1;
    SettleEffect(m, r, now);
    SettleStarts(m, r, now);
    hide Settle, GroupReport;
    if spec.groupId != "" {
      GroupReportSpares(settled, spec.groupId, r.jobId, r.success, now);
    }
    StillHeld(ReportAsWritten(m, r, now), r.jobId);
  }

  lemma StillHeld(m: Master, id: string)
    requires id in m.sched.jobs && m.sched.jobs[id].state != Queued
    requires multiset(m.sched.queue)[m.sched.jobs[id].spec] == 1
    ensures !Core(m)
  {
  }

  /** The whole report keeps heap, placement and ledger exactly when it releases
      nothing twice and takes nobody out of QUEUED. */
  lemma WholePlacement(m: Master, r: Result, now: int)
    requires Static(m) && SpreadOut(m.sched)
    ensures Core(ReportAsWritten(m, r, now)) <==> PlacementSpared(m, r.jobId)
  {
    UnguardedPlacement(m, r, now);
    assert Core(m) && Sound(m.sched);
    hide Static, Core, Sound, Settle, CompleteGroup, SpreadOut;
    if PlacementSpared(m, r.jobId) {
      CompleteGroupCore(Settle(m, r, now), r, now);
    } else if m.sched.jobs[r.jobId].state == Queued {
      QueuedRankReport(m, r, now);
    } else if m.sched.jobs[r.jobId].spec.groupId != "" {
      BrokenAccountStays(m, r, now);
    } else {
      SingleCompletesNothing(m, r, now);
    }
  }

  /** Shape and spread survive every report. */
  lemma WholeShape(m: Master, r: Result, now: int)
    requires Static(m) && SpreadOut(m.sched)
    ensures Shape(ReportAsWritten(m, r, now).sched) && SpreadOut(ReportAsWritten(m, r, now).sched)
  {
    if r.jobId in m.sched.jobs {
      var settled := Settle(m, r, now);
      SettleSpreads(m, r, now);
      hide Static, Settle, Shape, SpreadOut, CompleteGroup, Sound, Evolves, NoneStarts;
      CompleteGroupSteady(settled, r, now);
      CompletionStarts(settled, r, now);
      ShapeStays(settled.sched, CompleteGroup(settled, r, now).sched);
      EvolvesKeeps(settled.sched, CompleteGroup(settled, r, now).sched);
      SpreadStays(settled.sched, CompleteGroup(settled, r, now).sched);
    } else {
      UnknownReport(m, r, now);
    }
  }

  /** Ranks have no timers. */
  lemma RankHasNoTimer(m: Master, r: Result)
    requires TimersOk(m) && r.jobId in m.sched.jobs && m.sched.jobs[r.jobId].spec.groupId != ""
    ensures TimersSpared(m, r)
  {
    forall t | t in m.timers ensures t.jobId != r.jobId {
      assert TimerOk(m.sched, t);
    }
  }

  lemma WholeTimers(m: Master, r: Result, now: int)
    requires Sound(m.sched) && TimersOk(m)
    ensures TimersOk(ReportAsWritten(m, r, now)) <==> TimersSpared(m, r)
  {
    UnguardedTimers(m, r, now);
    if r.jobId !in m.sched.jobs {
      UnknownReport(m, r, now);
    } else if m.sched.jobs[r.jobId].spec.groupId == "" {
      SingleCompletesNothing(m, r, now);
    } else {
      var settled := Settle(m, r, now);
      RankHasNoTimer(m, r);
      SettleStarts(m, r, now);
      hide TimersOk, TimersSpared, Settle, CompleteGroup, Sound, Evolves;
      CompleteGroupSteady(settled, r, now);
      SteadyTimers(settled, CompleteGroup(settled, r, now));
    }
  }

  /** When group and rank states survive: no failure is reported for a rank that
      completed in a group that completed. */
  predicate RankSpared(m: Master, r: Result) {
    r.jobId in m.sched.jobs && Finished(m.sched.jobs[r.jobId]) && m.sched.jobs[r.jobId].spec.groupId in m.sched.groups
    ==> RanksSpared(m.sched.jobs[r.jobId], m.sched.groups[m.sched.jobs[r.jobId].spec.groupId], r)
  }

  lemma UnregisteredRank(m: Master, r: Result, now: int)
    requires Static(m) && r.jobId in m.sched.jobs && Finished(m.sched.jobs[r.jobId])
    requires m.sched.jobs[r.jobId].spec.groupId != "" && m.sched.jobs[r.jobId].spec.groupId !in m.sched.groups
    ensures RanksOk(ReportAsWritten(m, r, now).sched)
  {
    assert RankOk(m.sched.jobs[r.jobId], m.sched.groups);
    SettleTimers(m, r, now);
    assert ReportAsWritten(m, r, now) == Settle(m, r, now);
    assert Settle(m, r, now).sched.jobs == m.sched.jobs;
  }

  lemma WholeRanks(m: Master, r: Result, now: int)
    requires Static(m) && TimersOk(m) && Harmless(m, r)
    ensures RanksOk(ReportAsWritten(m, r, now).sched) <==> RankSpared(m, r)
  {
    assert "" !in m.sched.groups && Shape(m.sched) && RanksOk(m.sched);
    if r.jobId !in m.sched.jobs {
      UnknownReport(m, r, now);
    } else if m.sched.jobs[r.jobId].state == Running {
      hide Static, Shape, RanksOk, Harmless, RanksSpared, Settle, CompleteGroup;
      ReportOk(m, r, now);
    } else if m.sched.jobs[r.jobId].spec.groupId == "" {
      hide Static, Harmless, ReportAsWritten, TimersOk, Core;
      UnguardedSingleReport(m, r, now);
      SingleRanks(ReportAsWritten(m, r, now));
    } else if m.sched.jobs[r.jobId].spec.groupId in m.sched.groups {
      hide Static, RanksOk, ReportAsWritten, RanksSpared;
      UnguardedRankReport(m, r, now);
    } else {
      hide Static, RanksOk, ReportAsWritten;
      UnregisteredRank(m, r, now);
    }
  }

  lemma SingleRanks(m: Master)
    requires Static(m)
    ensures RanksOk(m.sched)
  {
  }

  /** The whole invariant of the master between two events. */
  ghost predicate Whole(m: Master) {
    Static(m) && TimersOk(m) && SpreadOut(m.sched)
  }

  /** The reports that the code as written survives. */
  predicate Survives(m: Master, r: Result) {
    Harmless(m, r) && RankSpared(m, r)
  }

  lemma HarmlessSplits(m: Master, r: Result)
    ensures Harmless(m, r) <==> PlacementSpared(m, r.jobId) && TimersSpared(m, r)
  {
  }

  lemma WholeSplits(m: Master)
    ensures Whole(m) <==> Core(m) && TimersOk(m) && Shape(m.sched) && RanksOk(m.sched) && SpreadOut(m.sched)
    ensures Whole(m) ==> Sound(m.sched)
  {
  }

  /** The report as written, group completion included, keeps the whole invariant
      exactly when it survives. */
  lemma WholeReport(m: Master, r: Result, now: int)
    requires Whole(m)
    ensures Whole(ReportAsWritten(m, r, now)) <==> Survives(m, r)
  {
    WholeSplits(m);
    WholeSplits(ReportAsWritten(m, r, now));
    HarmlessSplits(m, r);
    assert Static(m);
    hide Static, Core, TimersOk, Shape, RanksOk, SpreadOut, Sound, Harmless, PlacementSpared, TimersSpared, RankSpared,
      ReportAsWritten, Whole;
    WholePlacement(m, r, now);
    WholeTimers(m, r, now);
    WholeShape(m, r, now);
    if Harmless(m, r) {
      WholeRanks(m, r, now);
    }
  }

  // ---------- runs of the code as written ----------

  ghost predicate CodeSteps(cfg: Config, r: Run, e: Event, r': Run) {
    Possible(r.m, e) && r' == Moved(r, e, ApplyAsWritten(cfg, r.m, e))
  }

  /** A run of the code as written: reports arrive at any time, in any number. */
  ghost predicate IsCodeRun(cfg: Config, es: seq<Event>, rs: seq<Run>) {
    && |rs| == |es| + 1
    && Initial(rs[0])
    && (forall i | 0 <= i < |es| :: CodeSteps(cfg, rs[i], es[i], rs[i + 1]))
  }

  /** The event is no report, or one that the code survives. */
  predicate Tolerable(m: Master, e: Event) {
    e.Reported? ==> Survives(m, e.result)
  }

  lemma CodeEvent(cfg: Config, m: Master, e: Event)
    requires Whole(m) && Possible(m, e)
    ensures Whole(ApplyAsWritten(cfg, m, e)) <==> Tolerable(m, e)
  {
    if e.Reported? {
      hide Whole, Survives, ReportAsWritten;
      WholeReport(m, e.result, e.now);
    } else {
      assert Sound(m.sched);
      hide Static, TimersOk, SpreadOut, Possible, Apply, Effect, Sound;
      EventKeeps(cfg, m, e);
      EffectTimers(m, e, Apply(cfg, m, e));
      EventSpreads(cfg, m, e);
    }
  }

  lemma CodeStep(cfg: Config, es: seq<Event>, rs: seq<Run>, i: nat)
    requires IsCodeRun(cfg, es, rs) && i < |es| && Whole(rs[i].m)
    ensures Whole(rs[i + 1].m) <==> Tolerable(rs[i].m, es[i])
  {
    assert CodeSteps(cfg, rs[i], es[i], rs[i + 1]);
    hide Whole, Tolerable, ApplyAsWritten, Initial, Possible;
    CodeEvent(cfg, rs[i].m, es[i]);
  }

  lemma CodeStart(cfg: Config, es: seq<Event>, rs: seq<Run>)
    requires IsCodeRun(cfg, es, rs)
    ensures |rs| == |es| + 1 && Whole(rs[0].m)
  {
    InitialInv(rs[0]);
    InitialSpread(rs[0].m);
  }

  ghost predicate WholeUpTo(rs: seq<Run>, i: nat)
    requires i < |rs|
  {
    forall k | 0 <= k <= i :: Whole(rs[k].m)
  }

  ghost predicate TolerableUpTo(es: seq<Event>, rs: seq<Run>, i: nat)
    requires i <= |es| && i <= |rs|
  {
    forall k | 0 <= k < i :: Tolerable(rs[k].m, es[k])
  }

  lemma CodePrefix(cfg: Config, es: seq<Event>, rs: seq<Run>, i: nat)
    requires IsCodeRun(cfg, es, rs) && i < |es|
    ensures WholeUpTo(rs, i + 1) <==> WholeUpTo(rs, i) && Tolerable(rs[i].m, es[i])
    ensures TolerableUpTo(es, rs, i + 1) <==> TolerableUpTo(es, rs, i) && Tolerable(rs[i].m, es[i])
  {
    hide Whole, Tolerable, CodeSteps, Initial;
    if Whole(rs[i].m) {
      CodeStep(cfg, es, rs, i);
    }
    UpToGrows(es, rs, i);
  }

  lemma UpToGrows(es: seq<Event>, rs: seq<Run>, i: nat)
    requires i < |es| && i + 1 < |rs|
    ensures WholeUpTo(rs, i + 1) <==> WholeUpTo(rs, i) && Whole(rs[i + 1].m)
    ensures TolerableUpTo(es, rs, i + 1) <==> TolerableUpTo(es, rs, i) && Tolerable(rs[i].m, es[i])
    ensures WholeUpTo(rs, i) ==> Whole(rs[i].m)
  {
    hide Whole, Tolerable;
  }

  /** A run of the code keeps the invariant up to state i exactly when every report so
      far was one that it survives; the first other one breaks the invariant. */
  lemma {:induction false} CodeRunsExact(cfg: Config, es: seq<Event>, rs: seq<Run>, i: nat)
    requires IsCodeRun(cfg, es, rs) && i < |rs|
    ensures i <= |es|
    ensures WholeUpTo(rs, i) <==> TolerableUpTo(es, rs, i)
  {
    CodeStart(cfg, es, rs);
    hide Whole, Tolerable, CodeSteps, Initial;
    if i > 0 {
      hide WholeUpTo, TolerableUpTo;
      CodeRunsExact(cfg, es, rs, i - 1);
      CodePrefix(cfg, es, rs, i - 1);
    }
  }
}
