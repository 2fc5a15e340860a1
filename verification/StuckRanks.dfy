/** Ranks that nobody will start.  Only phase 0 starts ranks, and only those of
    PENDING groups; phases 1 and 2 give up as soon as a rank is on top of the heap.
    So a QUEUED rank whose group is not PENDING waits until it is cancelled, and
    while it is ahead of all single jobs none of those starts either. */
module StuckRanks {
  import opened Types
  import opened HeapOrder
  import opened Scheduling
  import opened MasterSteps
  import opened Placement
  import opened Continuity
  import opened ContinuitySteps
  import opened Groups
  import opened DispatchTick
  import opened Submission
  import opened Events
  import opened Runs
  import opened GangOutcome
  import opened Outcomes
  import opened Safety
  import Admission
  import Restart

  predicate Stuck(s: Sched, id: string) {
    InState(s, id, Queued) && s.jobs[id].spec.groupId != "" && Apart(s, id)
  }

  /** The job is no rank of a PENDING group. */
  predicate Apart(s: Sched, id: string) {
    && id in s.jobs
    && (s.jobs[id].spec.groupId in s.groups ==> s.groups[s.jobs[id].spec.groupId].state != GroupPending)
  }

  /** Nothing happens to the job, but it may be cancelled. */
  predicate Rests(rec: JobRec, rec': JobRec) {
    rec' == rec || rec'.state == Cancelled
  }

  // ---------- phase 0 ----------

  lemma {:induction false} CancelRanksSpares(s: Sched, ids: seq<string>, now: int, id: string)
    requires id in s.jobs && id !in ids && Keyed(s.jobs)
    ensures id in CancelRanks(s, ids, now).jobs && CancelRanks(s, ids, now).jobs[id] == s.jobs[id]
    decreases |ids|
  {
    if ids != [] {
      CancelRanksSpares(Cancel(s, ids[0], now), ids[1..], now, id);
    }
  }

  lemma ApartIsNoRank(s: Sched, g: GroupRec, id: string)
    requires Shape(s) && PendingNow(s, g) && Apart(s, id)
    ensures id !in g.jobIds
  {
    assert RanksOf(s.jobs, g);
  }

  lemma TryGangSpares(m: Master, g: GroupRec, matches: Matcher, now: int, id: string)
    requires g.numNodes >= 1 && Shape(m.sched) && PendingNow(m.sched, g) && Apart(m.sched, id)
    ensures id in TryGang(m, g, matches, now).sched.jobs
    ensures TryGang(m, g, matches, now).sched.jobs[id] == m.sched.jobs[id]
  {
    var ranks := QueuedAmong(m.sched, g.jobIds);
    var fit := MatchRanks(m.breaker, m.ledger, matches, {}, ranks, m.members, now);
    ApartIsNoRank(m.sched, g, id);
    QueuedAmongWaits(m.sched, g.jobIds);
    forall i | 0 <= i < |ranks| ensures ranks[i].spec.id != id {
      assert ranks[i] in ranks;
    }
    if |ranks| == g.numNodes && fit.found.Some? {
      MatchRanksLength(m.breaker, m.ledger, matches, {}, ranks, m.members, now);
      hide Shape, DispatchRanks;
      LoopKeepsOthers(m.(breaker := fit.breaker), ranks, fit.found.value, fit.found.value[0].addr, now);
      assert NoRank(ranks, id);
    }
  }

  lemma GangTickSpares(m: Master, g: GroupRec, matches: Matcher, now: int, id: string)
    requires g.numNodes >= 1 && Keyed(m.sched.jobs) && Shape(m.sched) && PendingNow(m.sched, g) && Apart(m.sched, id)
    ensures var s' := GangTick(m, g, matches, now).sched;
            Apart(s', id) && s'.jobs[id] == m.sched.jobs[id]
  {
    GangTickGroups(m, g, matches, now);
    if TimedOut(g, now) {
      ApartIsNoRank(m.sched, g, id);
      CancelRanksSpares(m.sched, g.jobIds, now, id);
    } else {
      hide TryGang;
      TryGangSpares(m, g, matches, now, id);
    }
  }

  /** Phase 0 leaves everybody alone but the ranks of pending groups. */
  lemma {:induction false} GangPhaseSpares(m: Master, gs: seq<GroupRec>, matches: Matcher, now: int, id: string)
    requires (forall g | g in gs :: g.numNodes >= 1) && AllPending(m.sched, gs)
    requires Keyed(m.sched.jobs) && Shape(m.sched) && Apart(m.sched, id)
    ensures var s' := GangPhase(m, gs, matches, now).sched;
            Apart(s', id) && s'.jobs[id] == m.sched.jobs[id]
    decreases |gs|
  {
    if gs != [] {
      assert gs[0] in gs;
      var next := GangTick(m, gs[0], matches, now);
      GangTickSpares(m, gs[0], matches, now, id);
      GangTickSteady(m, gs[0], matches, now);
      ShapeStays(m.sched, next.sched);
      AllPendingTail(m, gs, matches, now);
      StillKeyed(m.sched, next.sched);
      hide GangTick, Shape, Keyed;
      GangPhaseSpares(next, gs[1..], matches, now, id);
    }
  }

  lemma StillKeyed(s: Sched, s': Sched)
    requires Keyed(s.jobs) && Evolves(s, s')
    ensures Keyed(s'.jobs)
  {
    forall k | k in s'.jobs ensures s'.jobs[k].spec == s.jobs[k].spec {
      assert Follows(s.jobs[k], s'.jobs[k]);
    }
  }

  // ---------- phases 1 and 2 ----------

  lemma StartSparesRank(m: Master, m': Master, spec: JobSpec, x: Member, now: int, id: string)
    requires StartsOne(m, m', spec, x, now) && spec.groupId == ""
    requires id in m.sched.jobs && m.sched.jobs[id].spec.groupId != ""
    ensures id in m'.sched.jobs && m'.sched.jobs[id] == m.sched.jobs[id]
  {
  }

  lemma ConservesSparesRank(m: Master, m': Master, matches: Matcher, now: int, id: string)
    requires SingleOnTop(m) && Conserves(m, m', matches, now)
    requires id in m.sched.jobs && m.sched.jobs[id].spec.groupId != ""
    ensures id in m'.sched.jobs && m'.sched.jobs[id] == m.sched.jobs[id]
  {
    ConservesIsQuiet(m, m', matches, now);
    hide Conserves, StartsOne;
    if StartsSome(m, m', matches, now) {
      var x, spec :| CanTake(m, matches, spec, x, now) && StartsOne(m, m', spec, x, now);
      StartSparesRank(m, m', spec, x, now, id);
    }
  }

  /** They start single jobs only. */
  lemma SingleSparesRanks(m: Master, matches: Matcher, now: int, id: string)
    requires Core(m) && id in m.sched.jobs && m.sched.jobs[id].spec.groupId != ""
    ensures var s' := SinglePhase(m, matches, now).sched;
            id in s'.jobs && s'.jobs[id] == m.sched.jobs[id]
  {
    hide Core, SinglePhase, Conserves, SingleOnTop;
    WorkConserving(m, matches, now);
    if SingleOnTop(m) {
      ConservesSparesRank(m, SinglePhase(m, matches, now), matches, now, id);
    }
  }

  /** A tick does not start a stuck rank. */
  lemma TickSparesStuck(m: Master, gs: seq<GroupRec>, matches: Matcher, now: int, id: string)
    requires Static(m) && ListsPending(m.sched, gs) && (forall g | g in gs :: g.numNodes >= 1) && Stuck(m.sched, id)
    ensures var s' := Tick(m, gs, matches, now).sched;
            id in s'.jobs && s'.jobs[id] == m.sched.jobs[id]
  {
    PendingListed(m, gs);
    GangPhaseSpares(m, gs, matches, now, id);
    TickPhases(m, gs, matches, now);
    SingleSparesRanks(GangPhase(m, gs, matches, now), matches, now, id);
  }

  /** The rank is ahead of every single job in the heap. */
  ghost predicate Ahead(m: Master, id: string)
    requires id in m.sched.jobs
  {
    forall x | x in m.sched.queue && x.groupId == "" :: Less(m.sched.jobs[id].spec, x)
  }

  /** Only ranks changed, and no identities. */
  ghost predicate SinglesKept(s: Sched, s': Sched) {
    && s'.jobs.Keys == s.jobs.Keys
    && (forall k | k in s.jobs :: s'.jobs[k].spec == s.jobs[k].spec)
    && (forall k | k in s.jobs && s.jobs[k].spec.groupId == "" :: s'.jobs[k] == s.jobs[k])
  }

  lemma QueuedIsIn(m: Master, id: string)
    requires Core(m) && InState(m.sched, id, Queued)
    ensures m.sched.jobs[id].spec in m.sched.queue
  {
    assert multiset(m.sched.queue)[m.sched.jobs[id].spec] == 1;
  }

  lemma TopIsQueued(m: Master)
    requires Core(m) && m.sched.queue != []
    ensures InState(m.sched, m.sched.queue[0].id, Queued) && m.sched.jobs[m.sched.queue[0].id].spec == m.sched.queue[0]
  {
    HeapHoldsQueued(m.sched);
    assert m.sched.queue[0] in m.sched.queue;
  }

  /** A rank that was ahead before phase 0 still keeps single jobs from the top. */
  lemma SingleNotOnTop(m: Master, mid: Master, id: string)
    requires Core(m) && Core(mid) && SinglesKept(m.sched, mid.sched) && Stuck(m.sched, id) && Ahead(m, id)
    requires InState(mid.sched, id, Queued)
    ensures !SingleOnTop(mid)
  {
    hide Core;
    if SingleOnTop(mid) {
      TopIsQueued(mid);
      QueuedIsIn(m, mid.sched.queue[0].id);
      QueuedIsIn(mid, id);
      TopIsMinimal(mid, m.sched.jobs[id].spec);
    }
  }

  lemma PhaseKeepsSingles(m: Master, gs: seq<GroupRec>, matches: Matcher, now: int)
    requires Static(m) && ListsPending(m.sched, gs) && (forall g | g in gs :: g.numNodes >= 1)
    ensures SinglesKept(m.sched, GangPhase(m, gs, matches, now).sched)
  {
    var mid := GangPhase(m, gs, matches, now);
    PendingListed(m, gs);
    GangPhaseSteady(m, gs, matches, now);
    forall k | k in m.sched.jobs ensures mid.sched.jobs[k].spec == m.sched.jobs[k].spec {
      assert Follows(m.sched.jobs[k], mid.sched.jobs[k]);
    }
    forall k | k in m.sched.jobs && m.sched.jobs[k].spec.groupId == "" ensures mid.sched.jobs[k] == m.sched.jobs[k] {
      assert "" !in m.sched.groups;
      GangPhaseSpares(m, gs, matches, now, k);
    }
  }

  /** A tick that finds a stuck rank ahead of all single jobs starts none of them. */
  lemma TickHeldUp(m: Master, gs: seq<GroupRec>, matches: Matcher, now: int, id: string)
    requires Static(m) && ListsPending(m.sched, gs) && (forall g | g in gs :: g.numNodes >= 1)
    requires Stuck(m.sched, id) && Ahead(m, id)
    ensures SinglesKept(m.sched, Tick(m, gs, matches, now).sched)
  {
    PendingListed(m, gs);
    GangPhaseSpares(m, gs, matches, now, id);
    assert Core(m);
    hide Static, Core, Stuck, Ahead, SingleOnTop, Conserves, Tick, GangPhase;
    PhaseKeepsSingles(m, gs, matches, now);
    TickPhases(m, gs, matches, now);
    SingleNotOnTop(m, GangPhase(m, gs, matches, now), id);
  }

  // ---------- who starts jobs ----------

  /** No job starts, and none is given a node. */
  ghost predicate NoneStarts(s: Sched, s': Sched) {
    forall k | k in s'.jobs ::
      && (s'.jobs[k].state == Running ==> InState(s, k, Running))
      && (s'.jobs[k].worker == "" || (k in s.jobs && s'.jobs[k].worker == s.jobs[k].worker))
  }

  lemma NoneStartsTrans(a: Sched, b: Sched, c: Sched)
    requires NoneStarts(a, b) && NoneStarts(b, c)
    ensures NoneStarts(a, c)
  {
  }

  lemma CancelledSched(m: Master, k: string, now: int)
    ensures CancelJob(m, k, now).sched == Cancel(m.sched, k, now)
  {
  }

  lemma CancelStartsNobody(s: Sched, k: string, now: int)
    requires Sound(s)
    ensures NoneStarts(s, Cancel(s, k, now)) && Sound(Cancel(s, k, now))
  {
    hide Without;
  }

  lemma {:induction false} SiblingsStart(m: Master, ids: seq<string>, spared: string, now: int)
    requires Sound(m.sched)
    ensures NoneStarts(m.sched, CancelSiblings(m, ids, spared, now).sched)
    decreases |ids|
  {
    if ids != [] {
      var next := if ids[0] == spared then m else CancelJob(m, ids[0], now);
      CancelledSched(m, ids[0], now);
      CancelStartsNobody(m.sched, ids[0], now);
      hide CancelJob, Cancel, Sound;
      SiblingsStart(next, ids[1..], spared, now);
      NoneStartsTrans(m.sched, next.sched, CancelSiblings(next, ids[1..], spared, now).sched);
    }
  }

  lemma CompletionStarts(m: Master, r: Result, now: int)
    requires Sound(m.sched)
    ensures NoneStarts(m.sched, CompleteGroup(m, r, now).sched)
  {
    if r.jobId in m.sched.jobs {
      var gid := m.sched.jobs[r.jobId].spec.groupId;
      if gid in m.sched.groups {
        SiblingsStart(m, m.sched.groups[gid].jobIds, r.jobId, now);
      }
    }
  }

  lemma SettleStarts(m: Master, r: Result, now: int)
    requires Sound(m.sched)
    ensures NoneStarts(m.sched, Settle(m, r, now).sched) && Sound(Settle(m, r, now).sched)
  {
    hide ReleasedIfPlaced, Judged, Billed, Retries, GivesUp, MarkCompleted;
    SettledSched(m, r, now);
    MarkStartsNobody(m.sched, r, now);
  }

  lemma SettledSched(m: Master, r: Result, now: int)
    ensures Settle(m, r, now).sched == MarkCompleted(m.sched, r.jobId, r.success, r.output, r.error, now)
  {
  }

  lemma MarkStartsNobody(s: Sched, r: Result, now: int)
    requires Sound(s)
    ensures NoneStarts(s, MarkCompleted(s, r.jobId, r.success, r.output, r.error, now))
    ensures Sound(MarkCompleted(s, r.jobId, r.success, r.output, r.error, now))
  {
  }

  lemma ReportStarts(m: Master, r: Result, now: int)
    requires Sound(m.sched)
    ensures NoneStarts(m.sched, ReportGuarded(m, r, now).sched)
  {
    hide Settle, CompleteGroup, Sound, Judged;
    SettleStarts(m, r, now);
    CompletionStarts(Settle(m, r, now), r, now);
    AsideSound(m, m.(breaker := Judged(m.breaker, r, now)));
    CompletionStarts(m.(breaker := Judged(m.breaker, r, now)), r, now);
  }

  lemma AsideSound(m: Master, m': Master)
    requires Sound(m.sched) && m'.sched == m.sched
    ensures Sound(m'.sched)
  {
  }

  lemma {:induction false} RequeueStarts(m: Master, ids: seq<string>)
    requires Sound(m.sched)
    ensures NoneStarts(m.sched, RequeueAll(m, ids).sched)
    decreases |ids|
  {
    if ids != [] {
      RequeueStarts(Requeue1(m, ids[0]), ids[1..]);
    }
  }

  lemma {:induction false} WalltimeStarts(m: Master, recs: seq<JobRec>, now: int)
    requires Sound(m.sched)
    ensures NoneStarts(m.sched, WalltimeSweep(m, recs, now).sched)
    decreases |recs|
  {
    if recs != [] {
      WalltimeStarts(Kill1(m, recs[0], now), recs[1..], now);
    }
  }

  lemma {:induction false} LoseStarts(m: Master, node: string, recs: seq<JobRec>, now: int)
    requires Sound(m.sched)
    ensures NoneStarts(m.sched, LoseAll(m, node, recs, now).sched)
    decreases |recs|
  {
    if recs != [] {
      LoseStarts(Lose1(m, node, recs[0], now), node, recs[1..], now);
    }
  }

  lemma SweepsStartNone(cfg: Config, m: Master, e: Event)
    requires Sound(m.sched) && Possible(m, e)
    requires e.Reported? || e.WalltimeChecked? || e.HandshakeChecked? || e.MemberLeft?
    ensures NoneStarts(m.sched, Apply(cfg, m, e).sched)
  {
    hide ReportGuarded, WalltimeSweep, RequeueAll, LoseAll, NoneStarts;
    match e {
      case Reported(result, now) => ReportStarts(m, result, now);
      case WalltimeChecked(running, now) => WalltimeStarts(m, running, now);
      case HandshakeChecked(ids, _) => RequeueStarts(Unwatched(m, ids), ids);
      case MemberLeft(name, lost, now) => LoseStarts(m.(members := Others(m.members, name)), name, lost, now);
    }
  }

  lemma GrowsStartsNone(s: Sched, s': Sched)
    requires Grows(s, s')
    ensures NoneStarts(s, s')
  {
  }

  lemma SubmissionsStartNone(cfg: Config, m: Master, e: Event)
    requires Possible(m, e) && (e.JobSubmitted? || e.GangSubmitted?)
    ensures NoneStarts(m.sched, Apply(cfg, m, e).sched)
  {
    hide Grows, NoneStarts, SubmitJob, SubmitGang;
    match e {
      case JobSubmitted(id, req, now) => JobGrows(m, cfg, id, req, now);
      case GangSubmitted(gid, req, now) => GangGrows(m, gid, req, now);
    }
    GrowsStartsNone(m.sched, Apply(cfg, m, e).sched);
  }

  lemma RetryStartsNone(m: Master, i: nat)
    requires Sound(m.sched) && TimersOk(m) && i < |m.timers|
    ensures NoneStarts(m.sched, RetryFires(m, i).sched)
  {
    assert TimerOk(m.sched, m.timers[i]);
    RetryEffect(m, i);
  }

  /** The events that touch neither a job nor a group. */
  predicate Quiet(e: Event) {
    e.Acknowledged? || e.MemberJoined? || e.RosterShuffled? || e.WroteBack? || e.UsageDecayed?
  }

  lemma QuietEvents(cfg: Config, m: Master, e: Event)
    requires Possible(m, e) && Quiet(e)
    ensures Apply(cfg, m, e).sched.jobs == m.sched.jobs
  {
  }

  lemma RequestStartsNone(cfg: Config, m: Master, e: Event)
    requires Sound(m.sched) && TimersOk(m) && Possible(m, e) && (Quiet(e) || e.CancelRequested? || e.RetryDue?)
    ensures NoneStarts(m.sched, Apply(cfg, m, e).sched)
  {
    if Quiet(e) {
      hide Apply;
      QuietEvents(cfg, m, e);
    } else if e.RetryDue? {
      hide TimersOk, RetryFires;
      RetryStartsNone(m, e.timer);
    } else {
      hide CancelJob;
      CancelledSched(m, e.id, e.now);
    }
  }

  /** Only ticks start jobs. */
  lemma OnlyTicksStart(cfg: Config, m: Master, e: Event)
    requires Static(m) && TimersOk(m) && Possible(m, e) && !e.Ticked?
    ensures NoneStarts(m.sched, Apply(cfg, m, e).sched)
  {
    assert Sound(m.sched);
    hide Static, Sound, TimersOk, Possible, Apply, NoneStarts;
    if e.Reported? || e.WalltimeChecked? || e.HandshakeChecked? || e.MemberLeft? {
      SweepsStartNone(cfg, m, e);
    } else if e.JobSubmitted? || e.GangSubmitted? {
      SubmissionsStartNone(cfg, m, e);
    } else {
      RequestStartsNone(cfg, m, e);
    }
  }

  // ---------- what happens to a stuck rank ----------

  /** The job waits or is cancelled, and then nothing but a cancellation can follow. */
  ghost predicate RestsIn(s: Sched, s': Sched, id: string) {
    id in s.jobs && id in s'.jobs && Rests(s.jobs[id], s'.jobs[id])
  }

  lemma RestsTrans(a: Sched, b: Sched, c: Sched, id: string)
    requires RestsIn(a, b, id) && RestsIn(b, c, id)
    ensures RestsIn(a, c, id)
  {
  }

  lemma CancelRests(s: Sched, k: string, now: int, id: string)
    requires Sound(s) && id in s.jobs
    ensures RestsIn(s, Cancel(s, k, now), id) && Sound(Cancel(s, k, now))
  {
    hide Without;
  }

  lemma {:induction false} SiblingsRest(m: Master, ids: seq<string>, spared: string, now: int, id: string)
    requires Sound(m.sched) && id in m.sched.jobs
    ensures RestsIn(m.sched, CancelSiblings(m, ids, spared, now).sched, id)
    decreases |ids|
  {
    if ids != [] {
      var next := if ids[0] == spared then m else CancelJob(m, ids[0], now);
      CancelledSched(m, ids[0], now);
      CancelRests(m.sched, ids[0], now, id);
      hide CancelJob, Cancel, Sound;
      SiblingsRest(next, ids[1..], spared, now, id);
      RestsTrans(m.sched, next.sched, CancelSiblings(next, ids[1..], spared, now).sched, id);
    }
  }

  lemma CompletionRests(m: Master, r: Result, now: int, id: string)
    requires Sound(m.sched) && id in m.sched.jobs
    ensures RestsIn(m.sched, CompleteGroup(m, r, now).sched, id)
  {
    if r.jobId in m.sched.jobs {
      var gid := m.sched.jobs[r.jobId].spec.groupId;
      if gid in m.sched.groups {
        SiblingsRest(m, m.sched.groups[gid].jobIds, r.jobId, now, id);
      }
    }
  }

  lemma MarkSparesOthers(s: Sched, r: Result, now: int, id: string)
    requires Sound(s) && id in s.jobs && id != r.jobId
    ensures var s' := MarkCompleted(s, r.jobId, r.success, r.output, r.error, now);
            Sound(s') && id in s'.jobs && s'.jobs[id] == s.jobs[id]
  {
  }

  lemma SettleRests(m: Master, r: Result, now: int, id: string)
    requires Sound(m.sched) && id in m.sched.jobs && id != r.jobId
    ensures Sound(Settle(m, r, now).sched)
    ensures id in Settle(m, r, now).sched.jobs && Settle(m, r, now).sched.jobs[id] == m.sched.jobs[id]
  {
    hide Settle, MarkCompleted, Sound;
    SettledSched(m, r, now);
    MarkSparesOthers(m.sched, r, now, id);
  }

  lemma ReportRests(m: Master, r: Result, now: int, id: string)
    requires Sound(m.sched) && InState(m.sched, id, Queued)
    ensures RestsIn(m.sched, ReportGuarded(m, r, now).sched, id)
  {
    hide Settle, CompleteGroup, Sound, Judged;
    if InState(m.sched, r.jobId, Running) {
      SettleRests(m, r, now, id);
      CompletionRests(Settle(m, r, now), r, now, id);
    } else {
      AsideSound(m, m.(breaker := Judged(m.breaker, r, now)));
      CompletionRests(m.(breaker := Judged(m.breaker, r, now)), r, now, id);
    }
  }

  lemma {:induction false} RequeueRests(m: Master, ids: seq<string>, id: string)
    requires Sound(m.sched) && InState(m.sched, id, Queued)
    ensures RestsIn(m.sched, RequeueAll(m, ids).sched, id)
    decreases |ids|
  {
    if ids != [] {
      RequeueRests(Requeue1(m, ids[0]), ids[1..], id);
    }
  }

  lemma RetryRests(m: Master, i: nat, id: string)
    requires Sound(m.sched) && TimersOk(m) && i < |m.timers| && InState(m.sched, id, Queued)
    ensures RestsIn(m.sched, RetryFires(m, i).sched, id)
  {
    assert TimerOk(m.sched, m.timers[i]);
    RetryEffect(m, i);
  }

  lemma WalltimeRests(m: Master, running: seq<JobRec>, now: int, id: string)
    requires Keyed(m.sched.jobs) && Lists(m.sched, RunsAnywhere(), running) && InState(m.sched, id, Queued)
    ensures RestsIn(m.sched, WalltimeSweep(m, running, now).sched, id)
  {
    hide WalltimeSweep, Lists, Keyed;
    WalltimeKillsOverruns(m, running, now, id);
  }

  lemma LeaveRests(m: Master, name: string, lost: seq<JobRec>, now: int, id: string)
    requires Core(m) && Lists(m.sched, RunsOn(name), lost) && InState(m.sched, id, Queued)
    ensures RestsIn(m.sched, NodeLeaves(m, name, lost, now).sched, id)
  {
    hide NodeLeaves, Lists, Core;
    NodeLossFailsItsJobs(m, name, lost, now, id);
  }

  lemma TickRests(m: Master, gs: seq<GroupRec>, matches: Matcher, now: int, id: string)
    requires Static(m) && ListsPending(m.sched, gs) && (forall g | g in gs :: g.numNodes >= 1) && Stuck(m.sched, id)
    ensures RestsIn(m.sched, Tick(m, gs, matches, now).sched, id)
  {
    hide Static, Tick, ListsPending;
    TickSparesStuck(m, gs, matches, now, id);
  }

  lemma SubmissionRests(cfg: Config, m: Master, e: Event, id: string)
    requires Possible(m, e) && id in m.sched.jobs && (e.JobSubmitted? || e.GangSubmitted?)
    ensures RestsIn(m.sched, Apply(cfg, m, e).sched, id)
  {
    match e {
      case JobSubmitted(k, req, now) => JobGrows(m, cfg, k, req, now);
      case GangSubmitted(gid, req, now) => AdmissionGrows(m.sched, gid, req, now);
    }
  }

  lemma TickedLetsRest(cfg: Config, m: Master, e: Event, id: string)
    requires Static(m) && Possible(m, e) && Stuck(m.sched, id) && e.Ticked?
    ensures RestsIn(m.sched, Apply(cfg, m, e).sched, id)
  {
    hide Static, Stuck, Tick, ListsPending, RestsIn;
    TickRests(m, e.pending, cfg.matches, e.now, id);
  }

  lemma HandshakeRests(m: Master, ids: seq<string>, id: string)
    requires Sound(m.sched) && InState(m.sched, id, Queued)
    ensures RestsIn(m.sched, HandshakeSweep(m, ids).sched, id)
  {
    hide RequeueAll;
    RequeueRests(Unwatched(m, ids), ids, id);
  }

  lemma WalltimeLetsRest(cfg: Config, m: Master, e: Event, id: string)
    requires Keyed(m.sched.jobs) && Possible(m, e) && InState(m.sched, id, Queued) && e.WalltimeChecked?
    ensures RestsIn(m.sched, Apply(cfg, m, e).sched, id)
  {
    hide Keyed, Lists, WalltimeSweep, RestsIn;
    WalltimeRests(m, e.running, e.now, id);
  }

  lemma LeaveLetsRest(cfg: Config, m: Master, e: Event, id: string)
    requires Core(m) && Possible(m, e) && InState(m.sched, id, Queued) && e.MemberLeft?
    ensures RestsIn(m.sched, Apply(cfg, m, e).sched, id)
  {
    hide Core, Lists, NodeLeaves, RestsIn;
    LeaveRests(m, e.name, e.lost, e.now, id);
  }

  lemma HandshakeLetsRest(cfg: Config, m: Master, e: Event, id: string)
    requires Sound(m.sched) && Possible(m, e) && InState(m.sched, id, Queued) && e.HandshakeChecked?
    ensures RestsIn(m.sched, Apply(cfg, m, e).sched, id)
  {
    hide Sound, ListsExpired, HandshakeSweep, RestsIn;
    HandshakeRests(m, e.expired, id);
  }

  lemma SweepsLetRest(cfg: Config, m: Master, e: Event, id: string)
    requires Core(m) && Sound(m.sched) && Possible(m, e) && InState(m.sched, id, Queued)
    requires e.WalltimeChecked? || e.HandshakeChecked? || e.MemberLeft?
    ensures RestsIn(m.sched, Apply(cfg, m, e).sched, id)
  {
    assert Keyed(m.sched.jobs);
    hide Core, Sound, Keyed, Possible, Apply, RestsIn;
    if e.WalltimeChecked? {
      WalltimeLetsRest(cfg, m, e, id);
    } else if e.MemberLeft? {
      LeaveLetsRest(cfg, m, e, id);
    } else {
      HandshakeLetsRest(cfg, m, e, id);
    }
  }

  lemma RequestLetsRest(cfg: Config, m: Master, e: Event, id: string)
    requires Sound(m.sched) && TimersOk(m) && Possible(m, e) && InState(m.sched, id, Queued)
    requires e.Reported? || e.CancelRequested? || e.RetryDue? || Quiet(e)
    ensures RestsIn(m.sched, Apply(cfg, m, e).sched, id)
  {
    if Quiet(e) {
      hide Apply;
      QuietEvents(cfg, m, e);
    } else {
      hide Sound, TimersOk, ReportGuarded, CancelJob, Cancel, RetryFires, RestsIn;
      match e {
        case CancelRequested(k, now) =>
          CancelledSched(m, k, now);
          CancelRests(m.sched, k, now, id);
        case Reported(result, now) => ReportRests(m, result, now, id);
        case RetryDue(i, _) => RetryRests(m, i, id);
      }
    }
  }

  /** Whatever happens to a stuck rank, it is not started, only cancelled. */
  lemma EventLetsRest(cfg: Config, m: Master, e: Event, id: string)
    requires Static(m) && TimersOk(m) && Possible(m, e) && Stuck(m.sched, id)
    ensures RestsIn(m.sched, Apply(cfg, m, e).sched, id)
  {
    assert Core(m) && Sound(m.sched) && InState(m.sched, id, Queued);
    hide Static, Core, Sound, TimersOk, Possible, Apply, RestsIn, Stuck;
    if e.JobSubmitted? || e.GangSubmitted? {
      SubmissionRests(cfg, m, e, id);
    } else if e.Ticked? {
      TickedLetsRest(cfg, m, e, id);
    } else if e.WalltimeChecked? || e.HandshakeChecked? || e.MemberLeft? {
      SweepsLetRest(cfg, m, e, id);
    } else {
      RequestLetsRest(cfg, m, e, id);
    }
  }

  // ---------- over runs ----------

  lemma StepLetsRest(cfg: Config, es: seq<Event>, rs: seq<Run>, i: nat, id: string)
    requires IsRun(cfg, es, rs) && i < |es| && Stuck(rs[i].m.sched, id)
    ensures RestsIn(rs[i].m.sched, rs[i + 1].m.sched, id)
  {
    Reachable(cfg, es, rs, i);
    assert Steps(cfg, rs[i], es[i], rs[i + 1]);
    hide Static, TimersOk, Possible, Apply, RestsIn, Stuck, Initial;
    EventLetsRest(cfg, rs[i].m, es[i], id);
  }

  /** A submission registers no group that a tracked job claims to belong to. */
  lemma SubmissionApart(cfg: Config, m: Master, e: Event, id: string)
    requires Possible(m, e) && (e.JobSubmitted? || e.GangSubmitted?) && Apart(m.sched, id)
    ensures Apart(Apply(cfg, m, e).sched, id)
  {
    match e {
      case JobSubmitted(k, req, now) => JobGrows(m, cfg, k, req, now);
      case GangSubmitted(gid, req, now) =>
        hide AdmitRanks, AllAdmitted;
        AdmissionGrows(m.sched, gid, req, now);
        AdmissionAdds(m.sched, gid, req, 0, now);
    }
  }

  /** What an event that submits nothing can do to jobs and groups: nothing unusual,
      or one FAILED job is queued again. */
  ghost predicate Aftermath(s: Sched, s': Sched) {
    || Evolves(s, s')
    || (s'.jobs == s.jobs && s'.groups == s.groups)
    || (s'.groups == s.groups && exists k | InState(s, k, Failed) :: s'.jobs == s.jobs[k := Reset(s.jobs[k], true)])
  }

  lemma EffectAftermath(m: Master, e: Event, m': Master)
    requires Effect(m, e, m') && Sound(m.sched) && TimersOk(m) && !e.JobSubmitted? && !e.GangSubmitted?
    ensures Aftermath(m.sched, m'.sched)
  {
    hide Evolves, Notified, Watched, Booked, Grows, RetryFires;
    if e.RetryDue? {
      assert TimerOk(m.sched, m.timers[e.timer]);
      RetryEffect(m, e.timer);
    }
  }

  /** Groups never become PENDING again. */
  lemma AftermathApart(s: Sched, s': Sched, id: string)
    requires Aftermath(s, s') && Apart(s, id)
    ensures Apart(s', id)
  {
    if Evolves(s, s') {
      assert Follows(s.jobs[id], s'.jobs[id]);
      var gid := s.jobs[id].spec.groupId;
      if gid in s.groups {
        assert Moves(s.groups[gid], s'.groups[gid]);
      }
    }
  }

  lemma AftermathCancelled(s: Sched, s': Sched, id: string)
    requires Aftermath(s, s') && InState(s, id, Cancelled)
    ensures InState(s', id, Cancelled)
  {
    if Evolves(s, s') {
      assert Follows(s.jobs[id], s'.jobs[id]);
    }
  }

  lemma StepApart(cfg: Config, es: seq<Event>, rs: seq<Run>, i: nat, id: string)
    requires IsRun(cfg, es, rs) && i < |es| && Apart(rs[i].m.sched, id)
    ensures Apart(rs[i + 1].m.sched, id)
  {
    RunStep(cfg, es, rs, i);
    assert Steps(cfg, rs[i], es[i], rs[i + 1]) && Sound(rs[i].m.sched);
    hide Static, Sound, TimersOk, Possible, Apply, Effect, Apart, Aftermath, Initial;
    if es[i].JobSubmitted? || es[i].GangSubmitted? {
      SubmissionApart(cfg, rs[i].m, es[i], id);
    } else {
      EffectAftermath(rs[i].m, es[i], rs[i + 1].m);
      AftermathApart(rs[i].m.sched, rs[i + 1].m.sched, id);
    }
  }

  lemma CancelledStays(cfg: Config, es: seq<Event>, rs: seq<Run>, i: nat, id: string)
    requires IsRun(cfg, es, rs) && i < |es| && InState(rs[i].m.sched, id, Cancelled)
    ensures InState(rs[i + 1].m.sched, id, Cancelled)
  {
    RunStep(cfg, es, rs, i);
    assert Sound(rs[i].m.sched);
    hide Static, Sound, TimersOk, Steps, Initial, Aftermath;
    if es[i].JobSubmitted? || es[i].GangSubmitted? {
      assert Grows(rs[i].m.sched, rs[i + 1].m.sched);
    } else {
      hide Effect;
      EffectAftermath(rs[i].m, es[i], rs[i + 1].m);
      AftermathCancelled(rs[i].m.sched, rs[i + 1].m.sched, id);
    }
  }

  /** A stuck rank stays exactly as it is, stuck, until it is cancelled, and then it
      stays cancelled. */
  ghost predicate StillStuck(s: Sched, s': Sched, id: string)
    requires id in s.jobs
  {
    (Stuck(s', id) && s'.jobs[id] == s.jobs[id]) || InState(s', id, Cancelled)
  }

  lemma StuckStep(cfg: Config, es: seq<Event>, rs: seq<Run>, i: nat, id: string)
    requires IsRun(cfg, es, rs) && i < |es| && Stuck(rs[i].m.sched, id)
    ensures StillStuck(rs[i].m.sched, rs[i + 1].m.sched, id)
  {
    hide IsRun;
    StepLetsRest(cfg, es, rs, i, id);
    StepApart(cfg, es, rs, i, id);
  }

  lemma {:induction false} StuckUntilCancelled(cfg: Config, es: seq<Event>, rs: seq<Run>, i: nat, j: nat, id: string)
    requires IsRun(cfg, es, rs) && i <= j < |rs| && Stuck(rs[i].m.sched, id)
    ensures StillStuck(rs[i].m.sched, rs[j].m.sched, id)
    decreases j
  {
    hide Steps, Initial, Apart;
    if i < j {
      StuckUntilCancelled(cfg, es, rs, i, j - 1, id);
      if Stuck(rs[j - 1].m.sched, id) {
        StuckStep(cfg, es, rs, j - 1, id);
      } else {
        CancelledStays(cfg, es, rs, j - 1, id);
      }
    }
  }

  lemma StuckAt(cfg: Config, es: seq<Event>, rs: seq<Run>, i: nat, j: nat, id: string)
    requires IsRun(cfg, es, rs) && i <= j < |rs| && Stuck(rs[i].m.sched, id) && InState(rs[j].m.sched, id, Queued)
    ensures Stuck(rs[j].m.sched, id)
  {
    hide IsRun, Apart;
    StuckUntilCancelled(cfg, es, rs, i, j, id);
  }

  lemma StepStartsNoSingle(cfg: Config, es: seq<Event>, rs: seq<Run>, i: nat, id: string, k: string)
    requires IsRun(cfg, es, rs) && i < |es| && Stuck(rs[i].m.sched, id) && Ahead(rs[i].m, id)
    requires InState(rs[i + 1].m.sched, k, Running) && rs[i + 1].m.sched.jobs[k].spec.groupId == ""
    ensures InState(rs[i].m.sched, k, Running)
  {
    Reachable(cfg, es, rs, i);
    assert Steps(cfg, rs[i], es[i], rs[i + 1]);
    if es[i].Ticked? {
      hide Static, TimersOk, Tick, ListsPending, Stuck, Ahead, Initial;
      TickHeldUp(rs[i].m, es[i].pending, cfg.matches, es[i].now, id);
    } else {
      hide Static, TimersOk, Possible, Apply, Stuck, Ahead, Initial;
      OnlyTicksStart(cfg, rs[i].m, es[i]);
    }
  }

  /** As long as a stuck rank is ahead of all single jobs that wait, and not
      cancelled, no single job starts. */
  lemma {:induction false} StuckRankHoldsUp(cfg: Config, es: seq<Event>, rs: seq<Run>, i: nat, j: nat, id: string,
                                            k: string)
    requires IsRun(cfg, es, rs) && i <= j < |rs| && Stuck(rs[i].m.sched, id)
    requires forall t | i <= t < j :: InState(rs[t].m.sched, id, Queued) && Ahead(rs[t].m, id)
    requires InState(rs[j].m.sched, k, Running) && rs[j].m.sched.jobs[k].spec.groupId == ""
    ensures InState(rs[i].m.sched, k, Running)
    decreases j
  {
    hide Steps, Initial, Stuck, Ahead;
    if i < j {
      StuckAt(cfg, es, rs, i, j - 1, id);
      StepStartsNoSingle(cfg, es, rs, j - 1, id, k);
      StepKeepsSpec(cfg, es, rs, j - 1, k);
      StuckRankHoldsUp(cfg, es, rs, i, j - 1, id, k);
    }
  }

  lemma StepKeepsSpec(cfg: Config, es: seq<Event>, rs: seq<Run>, i: nat, k: string)
    requires IsRun(cfg, es, rs) && i < |es| && k in rs[i].m.sched.jobs
    ensures k in rs[i + 1].m.sched.jobs && rs[i + 1].m.sched.jobs[k].spec == rs[i].m.sched.jobs[k].spec
  {
    hide IsRun;
    StepForgetsNobody(cfg, es, rs, i);
  }

  // ---------- where they come from ----------

  /** A gang that is refused half way leaves its first ranks behind: they are in the
      heap, but no group is registered. */
  lemma RefusedSticksRanks(m: Master, gid: string, req: GangRequest, now: int, id: string)
    requires FreshGroup(m.sched, gid, req)
    requires m.sched.maxQueueSize > 0 && |m.sched.queue| + Admission.Size(req) > m.sched.maxQueueSize
    requires id in SubmitGang(m, gid, req, now).sched.jobs && id !in m.sched.jobs
    ensures Stuck(SubmitGang(m, gid, req, now).sched, id)
  {
    Admission.AdmittedIfRoom(m.sched, gid, req, 0, now);
    AdmissionAdds(m.sched, gid, req, 0, now);
  }

  /** After a restart every rank that waits is stuck. */
  lemma RestartSticksRanks(old_: Restart.Remains, recs: seq<JobRec>, gs: seq<GroupRec>, now: int, id: string)
    requires Restart.Filed(old_.img) && Restart.ListsJobs(old_.img, recs) && Restart.ListsGroups(old_.img, gs)
    requires var s := Restart.Restored(old_, recs, gs, now).sched;
             InState(s, id, Queued) && s.jobs[id].spec.groupId != ""
    ensures Stuck(Restart.Restored(old_, recs, gs, now).sched, id)
  {
    hide Restart.Restored, Restart.ListsJobs, Restart.ListsGroups;
    Restart.NothingInFlight(old_, recs, gs, now);
  }

  /** So is every rank that a handshake timeout put back: its group runs. */
  lemma HandshakeSticksRank(m: Master, ids: seq<string>, id: string)
    requires Static(m) && InState(m.sched, id, Running) && m.sched.jobs[id].spec.groupId != ""
    requires InState(HandshakeSweep(m, ids).sched, id, Queued)
    ensures Stuck(HandshakeSweep(m, ids).sched, id)
  {
    var m' := HandshakeSweep(m, ids);
    RequeueAllSteady(Unwatched(m, ids), ids);
    assert Follows(m.sched.jobs[id], m'.sched.jobs[id]);
    var gid := m.sched.jobs[id].spec.groupId;
    if gid in m.sched.groups {
      assert Moves(m.sched.groups[gid], m'.sched.groups[gid]);
    }
  }
}
