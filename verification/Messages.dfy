/** What the workers were told last, over every run: a RUNNING job was last sent to
    the node it is placed on, and a job cancelled while it held a node was last
    ordered to stop there. */
module Messages {
  import opened Types
  import opened Scheduling
  import opened MasterSteps
  import opened Placement
  import opened CoreSteps
  import opened GangScheduling
  import opened Continuity
  import opened ContinuitySteps
  import opened Groups
  import opened DispatchTick
  import opened Events
  import opened Runs

  /** The last message about the job. */
  function Told(sent: seq<Payload>, id: string): Option<Payload> {
    if sent == [] then None
    else if sent[|sent| - 1].jobId == id then Some(sent[|sent| - 1])
    else Told(sent[..|sent| - 1], id)
  }

  lemma ToldAppended(sent: seq<Payload>, p: Payload, id: string)
    ensures Told(sent + [p], id) == if p.jobId == id then Some(p) else Told(sent, id)
  {
    assert (sent + [p])[..|sent|] == sent;
  }

  predicate StartedOn(told: Option<Payload>, spec: JobSpec, node: string) {
    && told.Some? && told.value.Execute? && told.value.node == node
    && told.value.command == spec.command && told.value.walltime == spec.walltime
  }

  /** The job's state agrees with what was last said about it. */
  predicate Consistent(rec: JobRec, told: Option<Payload>) {
    && (rec.state == Running ==> StartedOn(told, rec.spec, rec.worker))
    && (rec.state == Cancelled && rec.worker != "" ==> told == Some(Kill(rec.worker, rec.spec.id)))
  }

  ghost predicate Heard(m: Master) {
    forall id | id in m.sched.jobs :: Consistent(m.sched.jobs[id], Told(m.sent, id))
  }

  /** At most one more message, about the job. */
  predicate SaysMore(sent: seq<Payload>, sent': seq<Payload>, id: string) {
    || sent' == sent
    || (|sent'| == |sent| + 1 && sent' == sent + [sent'[|sent|]] && sent'[|sent|].jobId == id)
  }

  /** One job changes, with at most one message about it. */
  lemma HeardOne(m: Master, m': Master, id: string, rec: JobRec)
    requires Heard(m) && m'.sched.jobs == m.sched.jobs[id := rec]
    requires SaysMore(m.sent, m'.sent, id)
    requires Consistent(rec, Told(m'.sent, id))
    ensures Heard(m')
  {
    forall k | k in m'.sched.jobs ensures Consistent(m'.sched.jobs[k], Told(m'.sent, k)) {
      if k != id && m'.sent != m.sent {
        ToldAppended(m.sent, m'.sent[|m.sent|], k);
      }
    }
  }

  // ---------- the pieces ----------

  lemma CancelHeard(m: Master, id: string, now: int)
    requires Core(m) && Heard(m)
    ensures Heard(CancelJob(m, id, now))
  {
    if Cancellable(m.sched, id) {
      var rec := m.sched.jobs[id].(state := Cancelled, endTime := now);
      ToldAppended(m.sent, Kill(rec.worker, id), id);
      HeardOne(m, CancelJob(m, id, now), id, rec);
    }
  }

  lemma {:induction false} SiblingsHeard(m: Master, ids: seq<string>, spared: string, now: int)
    requires Core(m) && Heard(m)
    ensures Heard(CancelSiblings(m, ids, spared, now))
    decreases |ids|
  {
    if ids != [] {
      CancelHeard(m, ids[0], now);
      CancelJobCore(m, ids[0], now);
      SiblingsHeard(if ids[0] == spared then m else CancelJob(m, ids[0], now), ids[1..], spared, now);
    }
  }

  lemma CancelIdleHeard(m: Master, id: string, now: int)
    requires Core(m) && Heard(m) && !InState(m.sched, id, Running)
    ensures Heard(m.(sched := Cancel(m.sched, id, now)))
  {
    if InState(m.sched, id, Queued) {
      assert WellPlaced(m.sched.jobs[id], m.members);
      HeardOne(m, m.(sched := Cancel(m.sched, id, now)), id, m.sched.jobs[id].(state := Cancelled, endTime := now));
    }
  }

  /** A gang that times out never ran, so nobody has to be told. */
  lemma {:induction false} RanksHeard(m: Master, ids: seq<string>, now: int)
    requires Core(m) && Heard(m) && forall id | id in ids :: !InState(m.sched, id, Running)
    ensures Heard(m.(sched := CancelRanks(m.sched, ids, now)))
    decreases |ids|
  {
    if ids != [] {
      assert ids[0] in ids;
      CancelIdleHeard(m, ids[0], now);
      CancelIdleCore(m, ids[0], now);
      CancelStartsNone(m.sched, ids[0], now, ids[1..]);
      RanksHeard(m.(sched := Cancel(m.sched, ids[0], now)), ids[1..], now);
    }
  }

  lemma SettleHeard(m: Master, r: Result, now: int)
    requires Core(m) && Heard(m) && InState(m.sched, r.jobId, Running)
    ensures Heard(Settle(m, r, now))
  {
    var rec := m.sched.jobs[r.jobId].(state := if r.success then Completed else Failed,
                                      output := r.output, error := r.error, endTime := now);
    HeardOne(m, Settle(m, r, now), r.jobId, rec);
  }

  lemma CompleteHeard(m: Master, r: Result, now: int)
    requires Core(m) && Heard(m)
    ensures Heard(CompleteGroup(m, r, now))
  {
    if r.jobId in m.sched.jobs {
      var gid := m.sched.jobs[r.jobId].spec.groupId;
      if gid in m.sched.groups {
        SiblingsHeard(m, m.sched.groups[gid].jobIds, r.jobId, now);
      }
    }
  }

  lemma ReportHeard(m: Master, r: Result, now: int)
    requires Core(m) && Heard(m)
    ensures Heard(ReportGuarded(m, r, now))
  {
    if InState(m.sched, r.jobId, Running) {
      SettleHeard(m, r, now);
      SettleCore(m, r, now);
      CompleteHeard(Settle(m, r, now), r, now);
    } else if r.jobId in m.sched.jobs {
      CompleteHeard(m.(breaker := Judged(m.breaker, r, now)), r, now);
    }
  }

  lemma DispatchHeard(m: Master, m': Master, id: string, env: map<string, string>, node: string, now: int)
    requires Heard(m) && Sound(m.sched) && InState(m.sched, id, Queued)
    requires m'.sched.jobs == m.sched.jobs && m'.sent == m.sent
    ensures Heard(Dispatch(m', m.sched.jobs[id].spec, env, node, now))
  {
    var spec := m.sched.jobs[id].spec;
    var p := Order(m'.members, spec, env, node);
    ToldAppended(m.sent, p, id);
    assert p.jobId == id;
    HeardOne(m, Dispatch(m', spec, env, node, now), id, Started(m.sched.jobs[id], node, now));
  }

  lemma {:induction false} LoopHeard(m: Master, ranks: seq<JobRec>, nodes: seq<Member>, addr: string, now: int)
    requires Heard(m) && Sound(m.sched) && |ranks| == |nodes| && Waiting(m.sched, ranks)
    ensures Heard(DispatchRanks(m, ranks, nodes, addr, now))
    decreases |ranks|
  {
    if ranks != [] {
      assert ranks[0] in ranks;
      var id := ranks[0].spec.id;
      var next := Start1(m, ranks[0], nodes[0], addr, now);
      DispatchHeard(m, m.(sched := RemoveById(m.sched, id)), id, ranks[0].spec.env["MASTER_ADDR" := addr],
            nodes[0].name, now);
      DispatchSteady(m, m.(sched := RemoveById(m.sched, id)), id, ranks[0].spec.env["MASTER_ADDR" := addr],
            nodes[0].name, now);
      SoundStays(m.sched, next.sched);
      WaitingTail(m, ranks, nodes[0], addr, now);
      LoopHeard(next, ranks[1..], nodes[1..], addr, now);
    }
  }

  lemma TryGangHeard(m: Master, g: GroupRec, matches: Matcher, now: int)
    requires Heard(m) && Sound(m.sched) && GangShaped(g)
    ensures Heard(TryGang(m, g, matches, now))
  {
    var ranks := QueuedAmong(m.sched, g.jobIds);
    QueuedAmongWaits(m.sched, g.jobIds);
    var fit := MatchRanks(m.breaker, m.ledger, matches, {}, ranks, m.members, now);
    if |ranks| == g.numNodes && fit.found.Some? {
      MatchRanksLength(m.breaker, m.ledger, matches, {}, ranks, m.members, now);
      LoopHeard(m.(breaker := fit.breaker), ranks, fit.found.value, fit.found.value[0].addr, now);
    }
  }

  lemma GangTickHeard(m: Master, g: GroupRec, matches: Matcher, now: int)
    requires Static(m) && Heard(m) && GangShaped(g) && PendingNow(m.sched, g)
    ensures Heard(GangTick(m, g, matches, now))
  {
    if TimedOut(g, now) {
      PendingHasNoRunning(m.sched, g);
      RanksHeard(m, g.jobIds, now);
    } else {
      TryGangHeard(m, g, matches, now);
    }
  }

  lemma {:induction false} GangPhaseHeard(m: Master, gs: seq<GroupRec>, matches: Matcher, now: int)
    requires (forall g | g in gs :: g.numNodes >= 1) && AllPending(m.sched, gs)
    requires Static(m) && Heard(m)
    ensures Heard(GangPhase(m, gs, matches, now))
    decreases |gs|
  {
    if gs != [] {
      assert gs[0] in gs;
      var next := GangTick(m, gs[0], matches, now);
      GangTickHeard(m, gs[0], matches, now);
      GangTickCore(m, gs[0], matches, now);
      GangTickOk(m, gs[0], matches, now);
      GangTickSteady(m, gs[0], matches, now);
      ShapeStays(m.sched, next.sched);
      AllPendingTail(m, gs, matches, now);
      GangPhaseHeard(next, gs[1..], matches, now);
    }
  }

  lemma StartedHeard(m: Master, m': Master, spec: JobSpec, x: Member, now: int)
    requires Heard(m) && Sound(m.sched) && StartsOne(m, m', spec, x, now)
    ensures Heard(m')
  {
    var p := Order(m.members, spec, spec.env, x.name);
    ToldAppended(m.sent, p, spec.id);
    assert p.jobId == spec.id;
    HeardOne(m, m', spec.id, Started(m.sched.jobs[spec.id], x.name, now));
  }

  lemma SinglesHeard(m: Master, matches: Matcher, now: int)
    requires Static(m) && Heard(m)
    ensures Heard(SinglePhase(m, matches, now))
  {
    var m' := SinglePhase(m, matches, now);
    WorkConserving(m, matches, now);
    if SingleOnTop(m) {
      ConservesIsQuiet(m, m', matches, now);
      if StartsSome(m, m', matches, now) {
        var x, spec :| CanTake(m, matches, spec, x, now) && StartsOne(m, m', spec, x, now);
        StartedHeard(m, m', spec, x, now);
      }
    }
  }

  lemma TickHeard(m: Master, gs: seq<GroupRec>, matches: Matcher, now: int)
    requires Static(m) && Heard(m) && ListsPending(m.sched, gs) && forall g | g in gs :: g.numNodes >= 1
    ensures Heard(Tick(m, gs, matches, now))
  {
    PendingListed(m, gs);
    GangPhaseHeard(m, gs, matches, now);
    GangPhaseKeeps(m, gs, matches, now);
    GangPhaseSteady(m, gs, matches, now);
    ShapeStays(m.sched, GangPhase(m, gs, matches, now).sched);
    SinglesHeard(GangPhase(m, gs, matches, now), matches, now);
  }

  lemma {:induction false} WalltimeHeard(m: Master, recs: seq<JobRec>, now: int)
    requires Core(m) && Heard(m) && Current(m, recs)
    ensures Heard(WalltimeSweep(m, recs, now))
    decreases |recs|
  {
    if recs != [] {
      var id := recs[0].spec.id;
      assert recs[0] in recs;
      var next := Kill1(m, recs[0], now);
      KillHeard(m, recs[0], now);
      StopCore(m, id, recs[0].(state := Cancelled, endTime := now));
      CurrentTail(m, next, recs);
      WalltimeHeard(next, recs[1..], now);
    }
  }

  lemma KillHeard(m: Master, rec: JobRec, now: int)
    requires Heard(m) && InState(m.sched, rec.spec.id, Running) && m.sched.jobs[rec.spec.id] == rec
    ensures Heard(Kill1(m, rec, now))
  {
    if Overran(rec, now) {
      var p := Kill(rec.worker, rec.spec.id);
      ToldAppended(m.sent, p, rec.spec.id);
      assert p.jobId == rec.spec.id;
      HeardOne(m, Kill1(m, rec, now), rec.spec.id, rec.(state := Cancelled, endTime := now));
    }
  }

  lemma {:induction false} RequeueHeard(m: Master, ids: seq<string>)
    requires Heard(m) && Sound(m.sched)
    ensures Heard(RequeueAll(m, ids))
    decreases |ids|
  {
    if ids != [] {
      var next := Requeue1(m, ids[0]);
      if InState(m.sched, ids[0], Running) {
        HeardOne(m, next, ids[0], m.sched.jobs[ids[0]].(state := Queued, worker := "", startTime := 0));
      }
      RequeueHeard(next, ids[1..]);
    }
  }

  lemma {:induction false} LoseHeard(m: Master, node: string, recs: seq<JobRec>, now: int)
    requires Heard(m) && Current(m, recs)
    ensures Heard(LoseAll(m, node, recs, now))
    decreases |recs|
  {
    if recs != [] {
      assert recs[0] in recs;
      var next := Lose1(m, node, recs[0], now);
      Lose1Effect(m, node, recs[0], now);
      HeardOne(m, next, recs[0].spec.id, Lost(recs[0], now));
      CurrentTail(m, next, recs);
      LoseHeard(next, node, recs[1..], now);
    }
  }

  lemma SubmittedHeard(m: Master, m': Master)
    requires Heard(m) && m' == m.(sched := m'.sched) && Grows(m.sched, m'.sched)
    ensures Heard(m')
  {
  }

  lemma RetryHeard(m: Master, i: nat)
    requires Heard(m) && Sound(m.sched) && TimersOk(m) && i < |m.timers|
    ensures Heard(RetryFires(m, i))
  {
    assert TimerOk(m.sched, m.timers[i]);
    RetryEffect(m, i);
    HeardOne(m, RetryFires(m, i), m.timers[i].jobId, Reset(m.sched.jobs[m.timers[i].jobId], true));
  }

  // ---------- every event ----------

  lemma SweepHeard(cfg: Config, m: Master, e: Event)
    requires Static(m) && Heard(m) && Possible(m, e)
    requires e.Ticked? || e.WalltimeChecked? || e.HandshakeChecked? || e.MemberLeft?
    ensures Heard(Apply(cfg, m, e))
  {
    match e {
      case Ticked(gs, now) => TickHeard(m, gs, cfg.matches, now);
      case WalltimeChecked(running, now) => WalltimeHeard(m, running, now);
      case HandshakeChecked(ids, _) => RequeueHeard(Unwatched(m, ids), ids);
      case MemberLeft(name, lost, now) => LoseHeard(m.(members := Others(m.members, name)), name, lost, now);
    }
  }

  lemma RequestHeard(cfg: Config, m: Master, e: Event)
    requires Static(m) && TimersOk(m) && Heard(m) && Possible(m, e) && Effect(m, e, Apply(cfg, m, e))
    requires e.JobSubmitted? || e.GangSubmitted? || e.CancelRequested? || e.RetryDue? || e.Reported?
    ensures Heard(Apply(cfg, m, e))
  {
    match e {
      case RetryDue(i, _) => RetryHeard(m, i);
      case CancelRequested(id, now) => CancelHeard(m, id, now);
      case Reported(result, now) => ReportHeard(m, result, now);
      case JobSubmitted(_, _, _) => SubmittedHeard(m, Apply(cfg, m, e));
      case GangSubmitted(_, _, _) => SubmittedHeard(m, Apply(cfg, m, e));
    }
  }

  lemma EventHeard(cfg: Config, m: Master, e: Event)
    requires Static(m) && TimersOk(m) && Heard(m) && Possible(m, e) && Effect(m, e, Apply(cfg, m, e))
    ensures Heard(Apply(cfg, m, e))
  {
    if e.Ticked? || e.WalltimeChecked? || e.HandshakeChecked? || e.MemberLeft? {
      SweepHeard(cfg, m, e);
    } else if e.JobSubmitted? || e.GangSubmitted? || e.CancelRequested? || e.RetryDue? || e.Reported? {
      RequestHeard(cfg, m, e);
    } else {
      assert Apply(cfg, m, e).sched.jobs == m.sched.jobs && Apply(cfg, m, e).sent == m.sent;
    }
  }

  lemma StepHeard(cfg: Config, es: seq<Event>, rs: seq<Run>, i: nat)
    requires IsRun(cfg, es, rs) && i < |es| && Heard(rs[i].m)
    ensures Heard(rs[i + 1].m)
  {
    RunStep(cfg, es, rs, i);
    assert Steps(cfg, rs[i], es[i], rs[i + 1]);
    EventHeard(cfg, rs[i].m, es[i]);
  }

  lemma InitialHeard(r: Run)
    requires Initial(r)
    ensures Heard(r.m)
  {
  }

  /** In every state of every run, what was last said about a job is right. */
  lemma {:induction false} WorkersAreTold(cfg: Config, es: seq<Event>, rs: seq<Run>, i: nat)
    requires IsRun(cfg, es, rs) && i < |rs|
    ensures Heard(rs[i].m)
  {
    if i == 0 {
      InitialHeard(rs[0]);
    } else {
      WorkersAreTold(cfg, es, rs, i - 1);
      StepHeard(cfg, es, rs, i - 1);
    }
  }
}
