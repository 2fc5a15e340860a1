/** Each step piece is steady; sweeps follow by transitivity. */
module ContinuitySteps {
  import opened Types
  import opened Scheduling
  import opened Ledger
  import opened CircuitBreaker
  import opened MasterSteps
  import opened Placement
  import opened CoreSteps
  import opened GangScheduling
  import opened Continuity

  // ---------- cancellation ----------

  lemma CancelSteady(m: Master, m': Master, id: string, now: int)
    requires Sound(m.sched)
    requires m' == m.(sched := Cancel(m.sched, id, now), ledger := m'.ledger, sent := m'.sent) && m.sent <= m'.sent
    ensures Steady(m, m')
  {
    if Cancellable(m.sched, id) {
      PutSteady(m, m', id, m.sched.jobs[id].(state := Cancelled, endTime := now));
    }
  }

  lemma CancelJobSteady(m: Master, id: string, now: int)
    requires Sound(m.sched)
    ensures Steady(m, CancelJob(m, id, now))
  {
    if Cancellable(m.sched, id) {
      CancelSteady(m, CancelJob(m, id, now), id, now);
    }
  }

  lemma {:induction false} CancelSiblingsSteady(m: Master, ids: seq<string>, spared: string, now: int)
    requires Sound(m.sched)
    ensures Steady(m, CancelSiblings(m, ids, spared, now))
    ensures CancelSiblings(m, ids, spared, now).sched.groups == m.sched.groups
    decreases |ids|
  {
    if ids != [] {
      var next := if ids[0] == spared then m else CancelJob(m, ids[0], now);
      CancelJobSteady(m, ids[0], now);
      AsideSteady(m, m);
      SoundStays(m.sched, next.sched);
      assert Steady(m, next) && next.sched.groups == m.sched.groups;
      hide Steady, CancelJob, Sound;
      CancelSiblingsSteady(next, ids[1..], spared, now);
      SteadyTrans(m, next, CancelSiblings(m, ids, spared, now));
    }
  }

  lemma {:induction false} CancelRanksSteady(m: Master, ids: seq<string>, now: int)
    requires Sound(m.sched)
    ensures Steady(m, m.(sched := CancelRanks(m.sched, ids, now)))
    ensures CancelRanks(m.sched, ids, now).groups == m.sched.groups
    decreases |ids|
  {
    if ids != [] {
      var next := m.(sched := Cancel(m.sched, ids[0], now));
      CancelSteady(m, next, ids[0], now);
      SoundStays(m.sched, next.sched);
      CancelRanksSteady(next, ids[1..], now);
      SteadyTrans(m, next, m.(sched := CancelRanks(m.sched, ids, now)));
    }
  }

  /** Set a group's state after a steady change. */
  lemma ThenGroupSteady(m: Master, next: Master, gid: string, st: GroupState)
    requires Sound(m.sched) && Steady(m, next)
    requires gid in next.sched.groups ==> Reaches(next.sched.groups[gid].state, st)
    ensures Steady(m, next.(sched := SetGroupState(next.sched, gid, st)))
  {
    SoundStays(m.sched, next.sched);
    GroupSteady(next, gid, st);
    SteadyTrans(m, next, next.(sched := SetGroupState(next.sched, gid, st)));
  }

  // ---------- reports ----------

  /** A settled report, apart from its retry timer and dead letter. */
  lemma SettleSteady(m: Master, r: Result, now: int)
    requires Sound(m.sched) && InState(m.sched, r.jobId, Running)
    ensures Steady(m, Settle(m, r, now).(timers := m.timers, deadLetters := m.deadLetters))
  {
    var rec := m.sched.jobs[r.jobId].(state := if r.success then Completed else Failed,
                                      output := r.output, error := r.error, endTime := now);
    PutSteady(m, Settle(m, r, now).(timers := m.timers, deadLetters := m.deadLetters), r.jobId, rec);
  }

  lemma GroupReportSteady(m: Master, gid: string, jobId: string, success: bool, now: int)
    requires Sound(m.sched)
    ensures Steady(m, GroupReport(m, gid, jobId, success, now))
  {
    if gid in m.sched.groups && !(m.sched.groups[gid].state in {GroupCompleted, GroupFailed}) {
      if !success {
        CancelSiblingsSteady(m, m.sched.groups[gid].jobIds, jobId, now);
        ThenGroupSteady(m, CancelSiblings(m, m.sched.groups[gid].jobIds, jobId, now), gid, GroupFailed);
      } else {
        GroupSteady(m, gid, GroupCompleted);
      }
    }
  }

  lemma CompleteGroupSteady(m: Master, r: Result, now: int)
    requires Sound(m.sched)
    ensures Steady(m, CompleteGroup(m, r, now))
  {
    if r.jobId in m.sched.jobs {
      GroupReportSteady(m, m.sched.jobs[r.jobId].spec.groupId, r.jobId, r.success, now);
    }
  }

  // ---------- dispatch ----------

  lemma DispatchSteady(m: Master, m': Master, id: string, env: map<string, string>, node: string, now: int)
    requires Sound(m.sched) && InState(m.sched, id, Queued)
    requires m' == m.(sched := m.sched.(queue := m'.sched.queue), breaker := m'.breaker)
    ensures Steady(m, Dispatch(m', m.sched.jobs[id].spec, env, node, now))
  {
    PutSteady(m, Dispatch(m', m.sched.jobs[id].spec, env, node, now), id, Started(m.sched.jobs[id], node, now));
  }

  /** The ranks wait in the heap. */
  ghost predicate Waiting(s: Sched, ranks: seq<JobRec>) {
    && DistinctJobs(ranks)
    && (forall r | r in ranks :: InState(s, r.spec.id, Queued) && s.jobs[r.spec.id] == r)
  }

  lemma WaitingTail(m: Master, ranks: seq<JobRec>, node: Member, addr: string, now: int)
    requires ranks != [] && Waiting(m.sched, ranks)
    ensures Waiting(Start1(m, ranks[0], node, addr, now).sched, ranks[1..])
  {
    assert ranks[0] in ranks;
    Start1Effect(m, ranks[0], node, addr, now);
    forall r | r in ranks[1..] ensures InState(Start1(m, ranks[0], node, addr, now).sched, r.spec.id, Queued) {
      assert r in ranks;
    }
  }

  lemma {:induction false} DispatchRanksSteady(m: Master, ranks: seq<JobRec>, nodes: seq<Member>, addr: string,
        now: int)
    requires Sound(m.sched) && |ranks| == |nodes| && Waiting(m.sched, ranks)
    ensures Steady(m, DispatchRanks(m, ranks, nodes, addr, now))
    ensures DispatchRanks(m, ranks, nodes, addr, now).sched.groups == m.sched.groups
    decreases |ranks|
  {
    if ranks != [] {
      assert ranks[0] in ranks;
      var id := ranks[0].spec.id;
      var next := Start1(m, ranks[0], nodes[0], addr, now);
      DispatchSteady(m, m.(sched := RemoveById(m.sched, id)), id, ranks[0].spec.env["MASTER_ADDR" := addr],
            nodes[0].name, now);
      SoundStays(m.sched, next.sched);
      WaitingTail(m, ranks, nodes[0], addr, now);
      DispatchRanksSteady(next, ranks[1..], nodes[1..], addr, now);
      SteadyTrans(m, next, DispatchRanks(m, ranks, nodes, addr, now));
    }
  }

  /** Listing queued ranks by distinct ids gives waiting ranks. */
  lemma {:induction false} QueuedAmongWaits(s: Sched, ids: seq<string>)
    requires forall k | k in s.jobs :: s.jobs[k].spec.id == k
    requires forall i, j | 0 <= i < j < |ids| :: ids[i] != ids[j]
    ensures Waiting(s, QueuedAmong(s, ids))
    ensures forall r | r in QueuedAmong(s, ids) :: r.spec.id in ids
    ensures |QueuedAmong(s, ids)| <= |ids|
  {
    if ids != [] {
      QueuedAmongWaits(s, ids[1..]);
      var tail := QueuedAmong(s, ids[1..]);
      forall j | 0 <= j < |tail| ensures tail[j].spec.id != ids[0] {
        assert tail[j] in tail;
        var k :| 0 <= k < |ids[1..]| && ids[1..][k] == tail[j].spec.id;
        assert ids[k + 1] == tail[j].spec.id;
      }
    }
  }

  ghost predicate GangShaped(g: GroupRec) {
    && g.numNodes >= 1 && |g.jobIds| == g.numNodes
    && (forall i, j | 0 <= i < j < |g.jobIds| :: g.jobIds[i] != g.jobIds[j])
  }

  /** The listed group is tracked as listed, and pending. */
  ghost predicate PendingNow(s: Sched, g: GroupRec) {
    g.id in s.groups && s.groups[g.id] == g && g.state == GroupPending
  }

  lemma TryGangSteady(m: Master, g: GroupRec, matches: Matcher, now: int)
    requires Sound(m.sched) && GangShaped(g) && PendingNow(m.sched, g)
    ensures Steady(m, TryGang(m, g, matches, now))
  {
    var ranks := QueuedAmong(m.sched, g.jobIds);
    QueuedAmongWaits(m.sched, g.jobIds);
    var fit := MatchRanks(m.breaker, m.ledger, matches, {}, ranks, m.members, now);
    var asked := m.(breaker := fit.breaker);
    AsideSteady(m, asked);
    if |ranks| == g.numNodes && fit.found.Some? {
      MatchRanksLength(m.breaker, m.ledger, matches, {}, ranks, m.members, now);
      var nodes := fit.found.value;
      DispatchRanksSteady(asked, ranks, nodes, nodes[0].addr, now);
      var started := DispatchRanks(asked, ranks, nodes, nodes[0].addr, now);
      SteadyTrans(m, asked, started);
      ThenGroupSteady(m, started, g.id, GroupRunning);
    }
  }

  lemma GangTickSteady(m: Master, g: GroupRec, matches: Matcher, now: int)
    requires Sound(m.sched) && GangShaped(g) && PendingNow(m.sched, g)
    ensures Steady(m, GangTick(m, g, matches, now))
  {
    if TimedOut(g, now) {
      CancelRanksSteady(m, g.jobIds, now);
      ThenGroupSteady(m, m.(sched := CancelRanks(m.sched, g.jobIds, now)), g.id, GroupFailed);
    } else {
      TryGangSteady(m, g, matches, now);
    }
  }

  lemma TryGangGroups(m: Master, g: GroupRec, matches: Matcher, now: int)
    requires Sound(m.sched) && GangShaped(g) && PendingNow(m.sched, g)
    ensures var groups := TryGang(m, g, matches, now).sched.groups;
            groups == m.sched.groups || groups == m.sched.groups[g.id := g.(state := GroupRunning)]
  {
    var ranks := QueuedAmong(m.sched, g.jobIds);
    QueuedAmongWaits(m.sched, g.jobIds);
    var fit := MatchRanks(m.breaker, m.ledger, matches, {}, ranks, m.members, now);
    if |ranks| == g.numNodes && fit.found.Some? {
      MatchRanksLength(m.breaker, m.ledger, matches, {}, ranks, m.members, now);
      var nodes := fit.found.value;
      DispatchRanksSteady(m.(breaker := fit.breaker), ranks, nodes, nodes[0].addr, now);
    }
  }

  /** A turn of phase 0 touches no group but its own, and settles that one as
      RUNNING or FAILED if at all. */
  lemma GangTickGroups(m: Master, g: GroupRec, matches: Matcher, now: int)
    requires Sound(m.sched) && GangShaped(g) && PendingNow(m.sched, g)
    ensures var groups := GangTick(m, g, matches, now).sched.groups;
            || groups == m.sched.groups
            || groups == m.sched.groups[g.id := g.(state := GroupRunning)]
            || groups == m.sched.groups[g.id := g.(state := GroupFailed)]
  {
    if TimedOut(g, now) {
      CancelRanksSteady(m, g.jobIds, now);
    } else {
      TryGangGroups(m, g, matches, now);
    }
  }

  ghost predicate AllPending(s: Sched, gs: seq<GroupRec>) {
    && DistinctGroups(gs)
    && (forall g | g in gs :: g.numNodes >= 1 && GangShaped(g) && PendingNow(s, g))
  }

  lemma AllPendingTail(m: Master, gs: seq<GroupRec>, matches: Matcher, now: int)
    requires gs != [] && gs[0].numNodes >= 1 && Sound(m.sched) && AllPending(m.sched, gs)
    ensures AllPending(GangTick(m, gs[0], matches, now).sched, gs[1..])
  {
    assert gs[0] in gs;
    GangTickGroups(m, gs[0], matches, now);
    var s' := GangTick(m, gs[0], matches, now).sched;
    forall g | g in gs[1..] ensures g.numNodes >= 1 && GangShaped(g) && PendingNow(s', g) {
      assert g in gs;
    }
  }

  lemma {:induction false} GangPhaseSteady(m: Master, gs: seq<GroupRec>, matches: Matcher, now: int)
    requires Sound(m.sched) && (forall g | g in gs :: g.numNodes >= 1) && AllPending(m.sched, gs)
    ensures Steady(m, GangPhase(m, gs, matches, now))
    decreases |gs|
  {
    if gs != [] {
      assert gs[0] in gs;
      var next := GangTick(m, gs[0], matches, now);
      GangTickSteady(m, gs[0], matches, now);
      SoundStays(m.sched, next.sched);
      AllPendingTail(m, gs, matches, now);
      GangPhaseSteady(next, gs[1..], matches, now);
      SteadyTrans(m, next, GangPhase(m, gs, matches, now));
    }
  }

  /** The heap holds queued jobs only. */
  ghost predicate HeapQueued(s: Sched) {
    forall x | x in s.queue :: InState(s, x.id, Queued) && s.jobs[x.id].spec == x
  }

  lemma HeapHoldsQueued(s: Sched)
    requires Keyed(s.jobs) && HeapExact(s.jobs, s.queue)
    ensures HeapQueued(s)
  {
    forall x | x in s.queue ensures InState(s, x.id, Queued) && s.jobs[x.id].spec == x {
      assert x in multiset(s.queue);
    }
  }

  lemma {:induction false} FillPhaseSteady(m: Master, members: seq<Member>, matches: Matcher, now: int)
    requires Sound(m.sched) && HeapQueued(m.sched)
    ensures Steady(m, FillPhase(m, members, matches, now))
    decreases |members|
  {
    if members != [] {
      var x := members[0];
      if !x.hasMeta {
        FillPhaseSteady(m, members[1..], matches, now);
      } else {
        var asked := m.(breaker := Queried(m.breaker, x.name, now));
        var fits := Fillable(m.ledger, matches, x);
        var choice := BackfillChoice(m.sched, fits);
        if Blocks(m.breaker, x.name, now) || choice == None {
          AsideSteady(m, asked);
          FillPhaseSteady(asked, members[1..], matches, now);
          SteadyTrans(m, asked, FillPhase(asked, members[1..], matches, now));
        } else {
          var spec := m.sched.queue[FirstMatch(m.sched.queue, fits)];
          assert spec in m.sched.queue;
          DispatchSteady(m, asked.(sched := Backfill(m.sched, fits)), spec.id, spec.env, x.name, now);
        }
      }
    }
  }

  lemma SinglePhaseSteady(m: Master, matches: Matcher, now: int)
    requires Sound(m.sched) && HeapQueued(m.sched)
    ensures Steady(m, SinglePhase(m, matches, now))
  {
    var top := Top(m.sched);
    if top.Some? && top.value.spec.groupId == "" {
      assert m.sched.queue[0] in m.sched.queue;
      var spec := top.value.spec;
      var fit := FirstFit(m.breaker, m.ledger, matches, {}, spec, m.members, now);
      var asked := m.(breaker := fit.breaker);
      if fit.found.Some? {
        DispatchSteady(m, asked.(sched := Dequeue(m.sched)), spec.id, spec.env, fit.found.value.name, now);
      } else {
        AsideSteady(m, asked);
        FillPhaseSteady(asked, m.members, matches, now);
        SteadyTrans(m, asked, FillPhase(asked, m.members, matches, now));
      }
    }
  }

  // ---------- enforcers and membership ----------

  lemma {:induction false} WalltimeSteady(m: Master, recs: seq<JobRec>, now: int)
    requires Sound(m.sched)
    ensures Steady(m, WalltimeSweep(m, recs, now))
    decreases |recs|
  {
    if recs != [] {
      var next := Kill1(m, recs[0], now);
      if Overran(recs[0], now) {
        CancelSteady(m, next, recs[0].spec.id, now);
      }
      SoundStays(m.sched, next.sched);
      WalltimeSteady(next, recs[1..], now);
      SteadyTrans(m, next, WalltimeSweep(m, recs, now));
    }
  }

  lemma {:induction false} RequeueAllSteady(m: Master, ids: seq<string>)
    requires Sound(m.sched)
    ensures Steady(m, RequeueAll(m, ids))
    decreases |ids|
  {
    if ids != [] {
      var next := Requeue1(m, ids[0]);
      if InState(m.sched, ids[0], Running) {
        PutSteady(m, next, ids[0], m.sched.jobs[ids[0]].(state := Queued, worker := "", startTime := 0));
      }
      SoundStays(m.sched, next.sched);
      RequeueAllSteady(next, ids[1..]);
      SteadyTrans(m, next, RequeueAll(m, ids));
    }
  }

  lemma Lose1Steady(m: Master, node: string, rec: JobRec, now: int)
    requires Sound(m.sched) && InState(m.sched, rec.spec.id, Running) && m.sched.jobs[rec.spec.id] == rec
    ensures Steady(m, Lose1(m, node, rec, now))
  {
    var id := rec.spec.id;
    var failed := m.(sched := MarkCompleted(m.sched, id, false, "", "worker node lost", now),
                     ledger := Released(m.ledger, node, rec.spec.need));
    PutSteady(m, failed, id, Lost(rec, now));
    var gid := rec.spec.groupId;
    if gid in m.sched.groups && m.sched.groups[gid].state == GroupRunning {
      ThenGroupSteady(m, failed, gid, GroupFailed);
    }
  }

  lemma {:induction false} LoseAllSteady(m: Master, node: string, recs: seq<JobRec>, now: int)
    requires Sound(m.sched) && Current(m, recs)
    ensures Steady(m, LoseAll(m, node, recs, now))
    decreases |recs|
  {
    if recs != [] {
      assert recs[0] in recs;
      var next := Lose1(m, node, recs[0], now);
      Lose1Steady(m, node, recs[0], now);
      Lose1Effect(m, node, recs[0], now);
      CurrentTail(m, next, recs);
      SoundStays(m.sched, next.sched);
      LoseAllSteady(next, node, recs[1..], now);
      SteadyTrans(m, next, LoseAll(m, node, recs, now));
    }
  }
}
