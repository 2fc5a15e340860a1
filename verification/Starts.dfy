/** Who starts, and where, over every run: only a tick of the dispatch loop starts a
    job, only a QUEUED one, and only on a member that can take it. */
module Starts {
  import opened Types
  import opened Scheduling
  import opened Ledger
  import CB = CircuitBreaker
  import opened MasterSteps
  import opened Placement
  import opened GangScheduling
  import opened Continuity
  import opened ContinuitySteps
  import opened Groups
  import opened DispatchTick
  import opened Events
  import opened Runs
  import opened GangOutcome
  import opened StuckRanks

  // ---------- what a stretch of a tick does ----------

  /** The job left the heap for x, which could take it, and is on the handshake list. */
  ghost predicate Begun(m: Master, m': Master, matches: Matcher, now: int, id: string, x: Member)
    requires id in m.sched.jobs && id in m'.sched.jobs
  {
    && m.sched.jobs[id].state == Queued
    && x in m.members && Takes(m.breaker, m.ledger, matches, m.sched.jobs[id].spec, x, now)
    && m'.sched.jobs[id] == m.sched.jobs[id].(state := Running, worker := x.name, startTime := now)
    && id in m'.pending && m'.pending[id] == now
  }

  predicate SameEntry(m: Master, m': Master, id: string) {
    && (id in m'.pending <==> id in m.pending)
    && (id in m.pending ==> m'.pending[id] == m.pending[id])
  }

  /** Nothing happened to the job, but it may have been cancelled in the heap. */
  predicate NotBegun(m: Master, m': Master, now: int, id: string)
    requires id in m.sched.jobs && id in m'.sched.jobs
  {
    && SameEntry(m, m', id)
    && (m'.sched.jobs[id] == m.sched.jobs[id]
        || (m.sched.jobs[id].state == Queued
            && m'.sched.jobs[id] == m.sched.jobs[id].(state := Cancelled, endTime := now)))
  }

  /** The same jobs and members, the same answers of the breaker, and no node with more
      left than before. */
  ghost predicate Later(m: Master, m': Master, now: int) {
    && m'.sched.jobs.Keys == m.sched.jobs.Keys && m'.members == m.members
    && SameAnswers(m.breaker, m'.breaker, now)
    && (forall node :: Covers(Held(m'.ledger, node), Held(m.ledger, node)))
  }

  ghost predicate Fate(m: Master, m': Master, matches: Matcher, now: int, id: string)
    requires id in m.sched.jobs && id in m'.sched.jobs
  {
    NotBegun(m, m', now, id) || exists x :: Begun(m, m', matches, now, id, x)
  }

  ghost predicate TickMoves(m: Master, m': Master, matches: Matcher, now: int) {
    && Later(m, m', now)
    && (forall id | id in m.sched.jobs :: Fate(m, m', matches, now, id))
    && (forall id | id !in m.sched.jobs :: SameEntry(m, m', id))
  }

  lemma TakesBefore(m: Master, m': Master, matches: Matcher, now: int, spec: JobSpec, x: Member)
    requires Later(m, m', now) && Takes(m'.breaker, m'.ledger, matches, spec, x, now)
    ensures Takes(m.breaker, m.ledger, matches, spec, x, now)
  {
    TakesAlike(m.breaker, m'.breaker, m.ledger, matches, spec, x, now);
    assert Covers(Held(m'.ledger, x.name), Held(m.ledger, x.name));
  }

  lemma LaterTrans(a: Master, b: Master, c: Master, now: int)
    requires Later(a, b, now) && Later(b, c, now)
    ensures Later(a, c, now)
  {
    forall node ensures Covers(Held(c.ledger, node), Held(a.ledger, node)) {
      assert Covers(Held(b.ledger, node), Held(a.ledger, node)) && Covers(Held(c.ledger, node), Held(b.ledger, node));
    }
  }

  lemma FateTrans(a: Master, b: Master, c: Master, matches: Matcher, now: int, id: string)
    requires Later(a, b, now) && Later(b, c, now) && id in a.sched.jobs
    requires Fate(a, b, matches, now, id) && Fate(b, c, matches, now, id)
    ensures Fate(a, c, matches, now, id)
  {
    hide Takes;
    if x :| Begun(b, c, matches, now, id, x) {
      TakesBefore(a, b, matches, now, b.sched.jobs[id].spec, x);
      assert Begun(a, c, matches, now, id, x);
    } else if x :| Begun(a, b, matches, now, id, x) {
      assert Begun(a, c, matches, now, id, x);
    }
  }

  lemma MovesTrans(a: Master, b: Master, c: Master, matches: Matcher, now: int)
    requires TickMoves(a, b, matches, now) && TickMoves(b, c, matches, now)
    ensures TickMoves(a, c, matches, now)
  {
    LaterTrans(a, b, c, now);
    hide Fate;
    forall id | id in a.sched.jobs ensures Fate(a, c, matches, now, id) {
      FateTrans(a, b, c, matches, now, id);
    }
  }

  lemma IdleMoves(m: Master, m': Master, matches: Matcher, now: int)
    requires Idles(m, m', now)
    ensures TickMoves(m, m', matches, now)
  {
  }

  // ---------- phase 0 ----------

  lemma {:induction false} RanksAside(m: Master, ranks: seq<JobRec>, nodes: seq<Member>, addr: string, now: int)
    requires |ranks| == |nodes|
    ensures DispatchRanks(m, ranks, nodes, addr, now).members == m.members
    ensures DispatchRanks(m, ranks, nodes, addr, now).breaker == m.breaker
    decreases |ranks|
  {
    if ranks != [] {
      RanksAside(Start1(m, ranks[0], nodes[0], addr, now), ranks[1..], nodes[1..], addr, now);
    }
  }

  lemma GangAside(m: Master, g: GroupRec, matches: Matcher, now: int)
    requires g.numNodes >= 1
    ensures TryGang(m, g, matches, now).members == m.members
    ensures SameAnswers(m.breaker, TryGang(m, g, matches, now).breaker, now)
  {
    var ranks := QueuedAmong(m.sched, g.jobIds);
    MatchSound(m.breaker, m.ledger, matches, {}, ranks, m.members, now);
    MatchRanksLength(m.breaker, m.ledger, matches, {}, ranks, m.members, now);
    var fit := MatchRanks(m.breaker, m.ledger, matches, {}, ranks, m.members, now);
    assert SameAnswers(m.breaker, m.breaker, now);
    hide SameAnswers, Assigns, MatchRanks;
    if |ranks| == g.numNodes && fit.found.Some? {
      RanksAside(m.(breaker := fit.breaker), ranks, fit.found.value, fit.found.value[0].addr, now);
    }
  }

  lemma MoreCovers(l: Ledger, l': Ledger, node: string, need: Res)
    requires need.NonNegative() && (HoldsMore(l, l', node, need) || HoldsSame(l, l', node))
    ensures Covers(Held(l', node), Held(l, node))
  {
  }

  /** A charged node has no more left than before. */
  lemma ChargedCovers(l: Ledger, l': Ledger, ranks: seq<JobRec>, nodes: seq<Member>, node: string)
    requires |ranks| == |nodes| && ChargedOnce(l, l', ranks, nodes)
    requires forall i | 0 <= i < |ranks| :: ranks[i].spec.need.NonNegative()
    ensures Covers(Held(l', node), Held(l, node))
  {
    hide HoldsMore, HoldsSame, Held, Covers;
    if NotAmong(nodes, node) {
      MoreCovers(l, l', node, NOTHING);
    } else {
      var i :| 0 <= i < |nodes| && nodes[i].name == node;
      MoreCovers(l, l', nodes[i].name, ranks[i].spec.need);
    }
  }

  lemma GangLater(m: Master, m': Master, g: GroupRec, matches: Matcher, now: int, nodes: seq<Member>)
    requires Keyed(m.sched.jobs) && GangStarts(m, m', g, matches, now, nodes)
    requires Waiting(m.sched, QueuedAmong(m.sched, g.jobIds))
    requires m'.members == m.members && SameAnswers(m.breaker, m'.breaker, now)
    ensures Later(m, m', now)
  {
    var ranks := QueuedAmong(m.sched, g.jobIds);
    forall i | 0 <= i < |ranks| ensures ranks[i].spec.need.NonNegative() {
      assert ranks[i] in ranks;
    }
    hide Assigns, Greedy, RankRuns, ChargedOnce, SameAnswers, QueuedAmong;
    forall node ensures Covers(Held(m'.ledger, node), Held(m.ledger, node)) {
      ChargedCovers(m.ledger, m'.ledger, ranks, nodes, node);
    }
  }

  lemma RankBegun(m: Master, m': Master, g: GroupRec, matches: Matcher, now: int, nodes: seq<Member>, i: nat)
    requires Waiting(m.sched, QueuedAmong(m.sched, g.jobIds)) && GangStarts(m, m', g, matches, now, nodes)
    requires i < |nodes|
    ensures g.jobIds[i] in m.sched.jobs && g.jobIds[i] in m'.sched.jobs
    ensures Begun(m, m', matches, now, g.jobIds[i], nodes[i])
  {
    var ranks := QueuedAmong(m.sched, g.jobIds);
    assert ranks[i] in ranks && RankRuns(m', ranks[i], nodes[i], now);
    hide Greedy, ChargedOnce, OthersKept, QueuedAmong, Takes;
  }

  lemma GangFate(m: Master, m': Master, g: GroupRec, matches: Matcher, now: int, nodes: seq<Member>, id: string)
    requires Waiting(m.sched, QueuedAmong(m.sched, g.jobIds)) && GangStarts(m, m', g, matches, now, nodes)
    requires id in m.sched.jobs && id in m'.sched.jobs
    ensures Fate(m, m', matches, now, id)
  {
    var ranks := QueuedAmong(m.sched, g.jobIds);
    if NoRank(ranks, id) {
      hide RankRuns, Assigns, Greedy, ChargedOnce, Waiting, QueuedAmong, Begun;
      assert NotBegun(m, m', now, id);
    } else {
      var i :| 0 <= i < |ranks| && ranks[i].spec.id == id;
      hide RankRuns, Assigns, Greedy, ChargedOnce, OthersKept, Waiting, QueuedAmong, Begun, NotBegun;
      RankBegun(m, m', g, matches, now, nodes, i);
    }
  }

  lemma GangSpares(m: Master, m': Master, g: GroupRec, matches: Matcher, now: int, nodes: seq<Member>, id: string)
    requires Waiting(m.sched, QueuedAmong(m.sched, g.jobIds)) && GangStarts(m, m', g, matches, now, nodes)
    requires id !in m.sched.jobs
    ensures SameEntry(m, m', id)
  {
    var ranks := QueuedAmong(m.sched, g.jobIds);
    forall i | 0 <= i < |ranks| ensures ranks[i].spec.id != id {
      assert ranks[i] in ranks;
    }
    hide RankRuns, Assigns, Greedy, ChargedOnce, Waiting, QueuedAmong;
    assert NoRank(ranks, id);
  }

  lemma GangMoves(m: Master, m': Master, g: GroupRec, matches: Matcher, now: int, nodes: seq<Member>)
    requires Keyed(m.sched.jobs) && GangStarts(m, m', g, matches, now, nodes)
    requires Waiting(m.sched, QueuedAmong(m.sched, g.jobIds))
    requires m'.members == m.members && SameAnswers(m.breaker, m'.breaker, now)
    ensures TickMoves(m, m', matches, now)
  {
    hide GangStarts, Waiting, QueuedAmong, SameAnswers, SameEntry, Fate, Keyed, Covers;
    GangLater(m, m', g, matches, now, nodes);
    GangFates(m, m', g, matches, now, nodes);
    GangEntries(m, m', g, matches, now, nodes);
  }

  lemma GangFates(m: Master, m': Master, g: GroupRec, matches: Matcher, now: int, nodes: seq<Member>)
    requires GangStarts(m, m', g, matches, now, nodes) && Waiting(m.sched, QueuedAmong(m.sched, g.jobIds))
    requires m'.sched.jobs.Keys == m.sched.jobs.Keys
    ensures forall id | id in m.sched.jobs :: Fate(m, m', matches, now, id)
  {
    hide *;
    forall id | id in m.sched.jobs ensures Fate(m, m', matches, now, id) {
      GangFate(m, m', g, matches, now, nodes, id);
    }
  }

  lemma GangEntries(m: Master, m': Master, g: GroupRec, matches: Matcher, now: int, nodes: seq<Member>)
    requires GangStarts(m, m', g, matches, now, nodes) && Waiting(m.sched, QueuedAmong(m.sched, g.jobIds))
    ensures forall id | id !in m.sched.jobs :: SameEntry(m, m', id)
  {
    hide *;
    forall id | id !in m.sched.jobs ensures SameEntry(m, m', id) {
      GangSpares(m, m', g, matches, now, nodes, id);
    }
  }

  lemma {:induction false} TimeoutFate(s: Sched, ids: seq<string>, now: int, id: string)
    requires Sound(s) && (forall k | k in ids :: !InState(s, k, Running)) && id in s.jobs
    ensures var s' := CancelRanks(s, ids, now);
            && s'.jobs.Keys == s.jobs.Keys
            && s'.jobs[id] == (if id in ids && s.jobs[id].state == Queued
                               then s.jobs[id].(state := Cancelled, endTime := now) else s.jobs[id])
    decreases |ids|
  {
    if ids != [] {
      assert ids[0] in ids;
      CancelStartsNobody(s, ids[0], now);
      TimeoutFate(Cancel(s, ids[0], now), ids[1..], now, id);
    }
  }

  lemma TimeoutMoves(m: Master, g: GroupRec, matches: Matcher, now: int)
    requires Shape(m.sched) && RanksOk(m.sched) && GangShaped(g) && PendingNow(m.sched, g) && TimedOut(g, now)
    ensures TickMoves(m, GangTick(m, g, matches, now), matches, now)
  {
    var m' := GangTick(m, g, matches, now);
    PendingHasNoRunning(m.sched, g);
    assert Sound(m.sched);
    hide Shape, RanksOk, GangShaped;
    if m.sched.jobs == map[] {
      NobodyCancelled(m.sched, g.jobIds, now);
    }
    forall id | id in m.sched.jobs ensures id in m'.sched.jobs && NotBegun(m, m', now, id) {
      TimeoutFate(m.sched, g.jobIds, now, id);
    }
    if k :| k in m.sched.jobs {
      TimeoutFate(m.sched, g.jobIds, now, k);
    }
  }

  lemma {:induction false} NobodyCancelled(s: Sched, ids: seq<string>, now: int)
    requires s.jobs == map[]
    ensures CancelRanks(s, ids, now) == s
    decreases |ids|
  {
    if ids != [] {
      NobodyCancelled(s, ids[1..], now);
    }
  }

  lemma TurnMoves(m: Master, g: GroupRec, matches: Matcher, now: int)
    requires Static(m) && GangShaped(g) && PendingNow(m.sched, g)
    ensures TickMoves(m, GangTick(m, g, matches, now), matches, now)
  {
    if TimedOut(g, now) {
      TimeoutMoves(m, g, matches, now);
    } else {
      var m' := TryGang(m, g, matches, now);
      AllOrNothing(m, g, matches, now);
      GangAside(m, g, matches, now);
      QueuedAmongWaits(m.sched, g.jobIds);
      hide Static, TryGang, Ready, GangStarts, TickMoves, Waiting, QueuedAmong;
      if Ready(m, g, matches, now) {
        var nodes :| GangStarts(m, m', g, matches, now, nodes);
        GangMoves(m, m', g, matches, now, nodes);
      } else {
        IdleMoves(m, m', matches, now);
      }
    }
  }

  lemma {:induction false} PhaseMoves(m: Master, gs: seq<GroupRec>, matches: Matcher, now: int)
    requires Static(m) && (forall g | g in gs :: g.numNodes >= 1) && AllPending(m.sched, gs)
    ensures TickMoves(m, GangPhase(m, gs, matches, now), matches, now)
    decreases |gs|
  {
    if gs == [] {
      IdleMoves(m, m, matches, now);
    } else {
      assert gs[0] in gs;
      var next := GangTick(m, gs[0], matches, now);
      TurnMoves(m, gs[0], matches, now);
      TurnKeeps(m, gs, matches, now);
      hide Static, TickMoves, GangTick, AllPending;
      PhaseMoves(next, gs[1..], matches, now);
      MovesTrans(m, next, GangPhase(m, gs, matches, now), matches, now);
    }
  }

  lemma TurnKeeps(m: Master, gs: seq<GroupRec>, matches: Matcher, now: int)
    requires Static(m) && (forall g | g in gs :: g.numNodes >= 1) && AllPending(m.sched, gs) && gs != []
    ensures Static(GangTick(m, gs[0], matches, now))
    ensures AllPending(GangTick(m, gs[0], matches, now).sched, gs[1..])
  {
    assert gs[0] in gs;
    GangTickCore(m, gs[0], matches, now);
    GangTickOk(m, gs[0], matches, now);
    GangTickSteady(m, gs[0], matches, now);
    ShapeStays(m.sched, GangTick(m, gs[0], matches, now).sched);
    AllPendingTail(m, gs, matches, now);
  }

  // ---------- phases 1 and 2 ----------

  lemma {:induction false} FillAside(m: Master, members: seq<Member>, matches: Matcher, now: int)
    ensures FillPhase(m, members, matches, now).members == m.members
    ensures SameAnswers(m.breaker, FillPhase(m, members, matches, now).breaker, now)
    decreases |members|
  {
    if members != [] {
      QuerySameAnswers(m.breaker, members[0].name, now);
      hide CB.Queried, CB.Blocks, BackfillChoice, Backfill;
      FillAside(m, members[1..], matches, now);
      FillAside(m.(breaker := CB.Queried(m.breaker, members[0].name, now)), members[1..], matches, now);
    }
  }

  lemma SingleAside(m: Master, matches: Matcher, now: int)
    ensures SinglePhase(m, matches, now).members == m.members
    ensures SameAnswers(m.breaker, SinglePhase(m, matches, now).breaker, now)
  {
    var top := Top(m.sched);
    if top.Some? {
      var _ := FirstFitCorrect(m.breaker, m.ledger, matches, {}, top.value.spec, m.members, now);
      var fit := FirstFit(m.breaker, m.ledger, matches, {}, top.value.spec, m.members, now);
      hide FirstFit, FirstTaker, Takes, CB.Blocks;
      FillAside(m.(breaker := fit.breaker), m.members, matches, now);
    }
  }

  lemma OneMoves(m: Master, m': Master, matches: Matcher, now: int, spec: JobSpec, x: Member)
    requires Keyed(m.sched.jobs) && CanTake(m, matches, spec, x, now) && StartsOne(m, m', spec, x, now)
    requires m'.members == m.members && SameAnswers(m.breaker, m'.breaker, now)
    ensures TickMoves(m, m', matches, now)
  {
    hide SameAnswers, Takes;
    forall node ensures Covers(Held(m'.ledger, node), Held(m.ledger, node)) {
      AllocateAdds(m.ledger, x.name, spec.need, node);
    }
    assert Begun(m, m', matches, now, spec.id, x);
    forall id | id in m.sched.jobs ensures Fate(m, m', matches, now, id) {
      assert id != spec.id ==> NotBegun(m, m', now, id);
    }
  }

  lemma SingleMoves(m: Master, matches: Matcher, now: int)
    requires Core(m)
    ensures TickMoves(m, SinglePhase(m, matches, now), matches, now)
  {
    var m' := SinglePhase(m, matches, now);
    WorkConserving(m, matches, now);
    SingleAside(m, matches, now);
    assert Keyed(m.sched.jobs);
    hide Core, Keyed, SinglePhase, SameAnswers, StartsOne, CanTake, TickMoves, Conserves;
    if SingleOnTop(m) {
      ConservesIsQuiet(m, m', matches, now);
      if StartsSome(m, m', matches, now) {
        var x, spec :| CanTake(m, matches, spec, x, now) && StartsOne(m, m', spec, x, now);
        OneMoves(m, m', matches, now, spec, x);
      } else {
        IdleMoves(m, m', matches, now);
      }
    } else {
      IdleMoves(m, m, matches, now);
    }
  }

  /** A whole tick: every job either starts as stated or does not start. */
  lemma TickStarts(m: Master, gs: seq<GroupRec>, matches: Matcher, now: int)
    requires Static(m) && ListsPending(m.sched, gs) && forall g | g in gs :: g.numNodes >= 1
    ensures TickMoves(m, Tick(m, gs, matches, now), matches, now)
  {
    var mid := GangPhase(m, gs, matches, now);
    PendingListed(m, gs);
    PhaseMoves(m, gs, matches, now);
    GangPhaseKeeps(m, gs, matches, now);
    hide Static, Core, TickMoves, GangPhase, SinglePhase, AllPending, ListsPending;
    SingleMoves(mid, matches, now);
    MovesTrans(m, mid, SinglePhase(mid, matches, now), matches, now);
  }

  // ---------- who starts ----------

  lemma TickStep(cfg: Config, es: seq<Event>, rs: seq<Run>, i: nat)
    requires IsRun(cfg, es, rs) && i < |es| && es[i].Ticked?
    ensures TickMoves(rs[i].m, rs[i + 1].m, cfg.matches, es[i].now)
  {
    Reachable(cfg, es, rs, i);
    assert Steps(cfg, rs[i], es[i], rs[i + 1]);
    hide Static, TimersOk, ListsPending, Tick, TickMoves, Initial;
    TickStarts(rs[i].m, es[i].pending, cfg.matches, es[i].now);
  }

  lemma OtherStep(cfg: Config, es: seq<Event>, rs: seq<Run>, i: nat)
    requires IsRun(cfg, es, rs) && i < |es| && !es[i].Ticked?
    ensures NoneStarts(rs[i].m.sched, rs[i + 1].m.sched)
  {
    Reachable(cfg, es, rs, i);
    assert Steps(cfg, rs[i], es[i], rs[i + 1]);
    hide Static, TimersOk, Possible, Apply, NoneStarts, Initial;
    OnlyTicksStart(cfg, rs[i].m, es[i]);
  }

  /** In every run, a job that RUNS after a step and did not before was QUEUED, the
      step was a tick, and the job runs on a member that advertises something,
      satisfies its requirement, is not blocked and had left what the job demands. */
  lemma JobStarts(cfg: Config, es: seq<Event>, rs: seq<Run>, i: nat, id: string) returns (x: Member)
    requires IsRun(cfg, es, rs) && i < |es|
    requires InState(rs[i + 1].m.sched, id, Running) && !InState(rs[i].m.sched, id, Running)
    ensures es[i].Ticked? && InState(rs[i].m.sched, id, Queued)
    ensures Begun(rs[i].m, rs[i + 1].m, cfg.matches, es[i].now, id, x)
  {
    hide Steps, Initial;
    if es[i].Ticked? {
      TickStep(cfg, es, rs, i);
      hide Takes, Later;
      assert Fate(rs[i].m, rs[i + 1].m, cfg.matches, es[i].now, id);
      x :| Begun(rs[i].m, rs[i + 1].m, cfg.matches, es[i].now, id, x);
    } else {
      OtherStep(cfg, es, rs, i);
      assert false;
    }
  }

  // ---------- who is on the handshake list ----------

  /** No entry is new, and none has a new time. */
  predicate NoNewEntries(m: Master, m': Master) {
    forall id | id in m'.pending :: id in m.pending && m'.pending[id] == m.pending[id]
  }

  lemma {:induction false} SiblingsEntries(m: Master, ids: seq<string>, spared: string, now: int)
    ensures CancelSiblings(m, ids, spared, now).pending == m.pending
    decreases |ids|
  {
    if ids != [] {
      SiblingsEntries(if ids[0] == spared then m else CancelJob(m, ids[0], now), ids[1..], spared, now);
    }
  }

  lemma CompletionEntries(m: Master, r: Result, now: int)
    ensures CompleteGroup(m, r, now).pending == m.pending
  {
    if r.jobId in m.sched.jobs {
      var gid := m.sched.jobs[r.jobId].spec.groupId;
      if gid in m.sched.groups {
        SiblingsEntries(m, m.sched.groups[gid].jobIds, r.jobId, now);
      }
    }
  }

  lemma ReportEntries(m: Master, r: Result, now: int)
    ensures ReportGuarded(m, r, now).pending == m.pending
  {
    hide CompleteGroup;
    CompletionEntries(Settle(m, r, now), r, now);
    CompletionEntries(m.(breaker := Judged(m.breaker, r, now)), r, now);
  }

  lemma {:induction false} WalltimeEntries(m: Master, recs: seq<JobRec>, now: int)
    ensures WalltimeSweep(m, recs, now).pending == m.pending
    decreases |recs|
  {
    if recs != [] {
      WalltimeEntries(Kill1(m, recs[0], now), recs[1..], now);
    }
  }

  lemma {:induction false} RequeueEntries(m: Master, ids: seq<string>)
    ensures RequeueAll(m, ids).pending == m.pending
    decreases |ids|
  {
    if ids != [] {
      RequeueEntries(Requeue1(m, ids[0]), ids[1..]);
    }
  }

  lemma {:induction false} LoseEntries(m: Master, node: string, recs: seq<JobRec>, now: int)
    ensures LoseAll(m, node, recs, now).pending == m.pending
    decreases |recs|
  {
    if recs != [] {
      LoseEntries(Lose1(m, node, recs[0], now), node, recs[1..], now);
    }
  }

  /** Only ticks put jobs on the handshake list. */
  lemma OnlyTicksList(cfg: Config, m: Master, e: Event)
    requires Possible(m, e) && !e.Ticked?
    ensures NoNewEntries(m, Apply(cfg, m, e))
  {
    hide SubmitJob, SubmitGang, ReportGuarded, WalltimeSweep, RequeueAll, LoseAll, Lists, ListsExpired;
    match e {
      case Reported(result, now) => ReportEntries(m, result, now);
      case WalltimeChecked(running, now) => WalltimeEntries(m, running, now);
      case HandshakeChecked(ids, _) => RequeueEntries(Unwatched(m, ids), ids);
      case MemberLeft(name, lost, now) => LoseEntries(m.(members := Others(m.members, name)), name, lost, now);
      case _ => EntriesStay(cfg, m, e);
    }
  }

  lemma EntriesStay(cfg: Config, m: Master, e: Event)
    requires Possible(m, e)
    requires !e.Ticked? && !e.Reported? && !e.WalltimeChecked? && !e.HandshakeChecked? && !e.MemberLeft?
    ensures NoNewEntries(m, Apply(cfg, m, e))
  {
  }

  /** In every run, an entry of the handshake list that was not there before, or not
      with this time, belongs to a job that a tick just started, at this time. */
  lemma NewEntry(cfg: Config, es: seq<Event>, rs: seq<Run>, i: nat, id: string)
    requires IsRun(cfg, es, rs) && i < |es| && id in rs[i + 1].m.pending
    requires !(id in rs[i].m.pending && rs[i].m.pending[id] == rs[i + 1].m.pending[id])
    ensures es[i].Ticked? && rs[i + 1].m.pending[id] == es[i].now
    ensures InState(rs[i].m.sched, id, Queued) && InState(rs[i + 1].m.sched, id, Running)
    ensures rs[i + 1].m.sched.jobs[id].startTime == es[i].now
  {
    hide Initial;
    if es[i].Ticked? {
      hide Steps;
      TickStep(cfg, es, rs, i);
      hide Takes, Later;
      assert id in rs[i].m.sched.jobs ==> Fate(rs[i].m, rs[i + 1].m, cfg.matches, es[i].now, id);
    } else {
      assert Steps(cfg, rs[i], es[i], rs[i + 1]);
      hide Possible, Apply;
      OnlyTicksList(cfg, rs[i].m, es[i]);
    }
  }

  // ---------- every gang has its turn ----------

  /** The master when the k-th of the listed groups has its turn. */
  function Before(m: Master, gs: seq<GroupRec>, matches: Matcher, now: int, k: nat): Master
    requires (forall g | g in gs :: g.numNodes >= 1) && k <= |gs|
  {
    GangPhase(m, gs[..k], matches, now)
  }

  /** A turn of phase 0: a group that has been pending for more than five minutes is
      FAILED and its waiting ranks are CANCELLED; any other starts as a whole if it
      can, and else nothing happens. */
  ghost predicate Turn(m: Master, m': Master, g: GroupRec, matches: Matcher, now: int) {
    if g.createdAt != 0 && now - g.createdAt > 300_000_000_000 then
      && m'.sched.groups == m.sched.groups[g.id := g.(state := GroupFailed)]
      && m'.sched.jobs.Keys == m.sched.jobs.Keys
      && (forall id | id in m.sched.jobs :: m'.sched.jobs[id]
            == (if id in g.jobIds && m.sched.jobs[id].state == Queued
                then m.sched.jobs[id].(state := Cancelled, endTime := now) else m.sched.jobs[id]))
    else if Ready(m, g, matches, now) then SomeGangStarts(m, m', g, matches, now)
    else Idles(m, m', now)
  }

  lemma {:induction false} PhaseSplits(m: Master, gs: seq<GroupRec>, matches: Matcher, now: int, k: nat)
    requires (forall g | g in gs :: g.numNodes >= 1) && k < |gs|
    ensures Before(m, gs, matches, now, k + 1) == GangTick(Before(m, gs, matches, now, k), gs[k], matches, now)
    decreases |gs|
  {
    hide GangTick;
    if k == 0 {
      assert gs[..1] == [gs[0]] && gs[..0] == [] && [gs[0]][1..] == [];
      assert GangPhase(GangTick(m, gs[0], matches, now), [], matches, now) == GangTick(m, gs[0], matches, now);
    } else {
      var next := GangTick(m, gs[0], matches, now);
      assert gs[..k + 1][1..] == gs[1..][..k] && gs[..k][1..] == gs[1..][..k - 1];
      PhaseSplits(next, gs[1..], matches, now, k - 1);
    }
  }

  /** Before the k-th turn the invariant holds and the remaining groups are pending. */
  ghost predicate ReadyFor(m: Master, gs: seq<GroupRec>, k: nat) {
    Static(m) && (forall g | g in gs :: g.numNodes >= 1) && k <= |gs| && AllPending(m.sched, gs[k..])
  }

  lemma TurnReadies(m: Master, gs: seq<GroupRec>, matches: Matcher, now: int, k: nat)
    requires ReadyFor(m, gs, k) && k < |gs|
    ensures gs[k].numNodes >= 1 && ReadyFor(GangTick(m, gs[k], matches, now), gs, k + 1)
  {
    assert gs[k] in gs;
    assert gs[k..][0] == gs[k] && gs[k..][1..] == gs[k + 1..];
    hide Static, AllPending, GangTick;
    TurnKeeps(m, gs[k..], matches, now);
  }

  lemma FirstReady(m: Master, gs: seq<GroupRec>, matches: Matcher, now: int)
    requires Static(m) && (forall g | g in gs :: g.numNodes >= 1) && AllPending(m.sched, gs)
    ensures Before(m, gs, matches, now, 0) == m && ReadyFor(m, gs, 0)
  {
    assert gs[..0] == [] && gs[0..] == gs;
    hide Static, AllPending;
  }

  lemma {:induction false} PhaseReady(m: Master, gs: seq<GroupRec>, matches: Matcher, now: int, k: nat)
    requires Static(m) && (forall g | g in gs :: g.numNodes >= 1) && AllPending(m.sched, gs) && k <= |gs|
    ensures ReadyFor(Before(m, gs, matches, now, k), gs, k)
    decreases k
  {
    hide *;
    if k == 0 {
      FirstReady(m, gs, matches, now);
    } else {
      PhaseReady(m, gs, matches, now, k - 1);
      PhaseSplits(m, gs, matches, now, k - 1);
      TurnReadies(Before(m, gs, matches, now, k - 1), gs, matches, now, k - 1);
    }
  }

  lemma TurnOutcome(m: Master, g: GroupRec, matches: Matcher, now: int)
    requires Static(m) && GangShaped(g) && PendingNow(m.sched, g)
    ensures Turn(m, GangTick(m, g, matches, now), g, matches, now)
  {
    if g.createdAt != 0 && now - g.createdAt > 300_000_000_000 {
      TimeoutOutcome(m, g, matches, now);
    } else {
      hide TryGang, Ready, SomeGangStarts, Idles;
      AllOrNothing(m, g, matches, now);
    }
  }

  lemma TimeoutOutcome(m: Master, g: GroupRec, matches: Matcher, now: int)
    requires Static(m) && GangShaped(g) && PendingNow(m.sched, g) && g.createdAt != 0
    requires now - g.createdAt > 300_000_000_000
    ensures Turn(m, GangTick(m, g, matches, now), g, matches, now)
  {
    PendingHasNoRunning(m.sched, g);
    assert Sound(m.sched);
    var s' := CancelRanks(m.sched, g.jobIds, now);
    CancelRanksSteady(m, g.jobIds, now);
    assert s'.jobs.Keys == m.sched.jobs.Keys && s'.groups == m.sched.groups;
    hide Static, Shape, RanksOk, GangShaped, Steady, CancelRanks, Ready, SomeGangStarts, Idles;
    forall id | id in m.sched.jobs
      ensures s'.jobs[id] == (if id in g.jobIds && m.sched.jobs[id].state == Queued
                              then m.sched.jobs[id].(state := Cancelled, endTime := now) else m.sched.jobs[id])
    {
      TimeoutFate(m.sched, g.jobIds, now, id);
    }
  }

  /** Phase 0 gives every pending group its turn, one after the other, and nothing
      else happens in it. */
  lemma EveryGangTurns(m: Master, gs: seq<GroupRec>, matches: Matcher, now: int, k: nat)
    requires Static(m) && ListsPending(m.sched, gs) && (forall g | g in gs :: g.numNodes >= 1) && k < |gs|
    ensures Before(m, gs, matches, now, 0) == m && Before(m, gs, matches, now, |gs|) == GangPhase(m, gs, matches, now)
    ensures PendingNow(Before(m, gs, matches, now, k).sched, gs[k])
    ensures Turn(Before(m, gs, matches, now, k), Before(m, gs, matches, now, k + 1), gs[k], matches, now)
  {
    PendingListed(m, gs);
    PhaseReady(m, gs, matches, now, k);
    PhaseSplits(m, gs, matches, now, k);
    assert gs[k..][0] == gs[k] && gs[k] in gs[k..] && gs[..|gs|] == gs && gs[..0] == [];
    hide Static, GangTick, Turn;
    TurnOutcome(Before(m, gs, matches, now, k), gs[k], matches, now);
  }
}
