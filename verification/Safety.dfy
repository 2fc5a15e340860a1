/** The safety theorems about every state of every run, in plain terms. */
module Safety {
  import opened Types
  import opened HeapOrder
  import opened Scheduling
  import opened Ledger
  import opened MasterSteps
  import opened Placement
  import opened ContinuitySteps
  import opened Groups
  import opened DispatchTick
  import opened Events
  import opened Runs
  import opened RetryAccounting

  /** The ledger is exact: what it says of a node is the sum of the demands of the
      jobs running there, never negative, never above what a member advertises. */
  lemma LedgerIsExact(cfg: Config, es: seq<Event>, rs: seq<Run>, i: nat, node: string)
    requires IsRun(cfg, es, rs) && i < |rs|
    ensures Held(rs[i].m.ledger, node) == Load(rs[i].m.sched.jobs, node)
    ensures Held(rs[i].m.ledger, node).NonNegative()
    ensures forall x | x in rs[i].m.members && x.name == node :: Held(rs[i].m.ledger, node).Within(x.total)
  {
    hide Steps, Initial;
    Reachable(cfg, es, rs, i);
    LoadNonNegative(rs[i].m.sched.jobs, node);
  }

  /** No release is ever clamped: the node holds at least what a running job gives
      back, so the subtraction is exact. */
  lemma NoReleaseIsClamped(cfg: Config, es: seq<Event>, rs: seq<Run>, i: nat, id: string)
    requires IsRun(cfg, es, rs) && i < |rs| && InState(rs[i].m.sched, id, Running)
    ensures var job := rs[i].m.sched.jobs[id];
            var l := rs[i].m.ledger;
            Held(Released(l, job.worker, job.spec.need), job.worker) == Held(l, job.worker).Minus(job.spec.need)
  {
    hide Steps, Initial;
    Reachable(cfg, es, rs, i);
    LoadCoversJob(rs[i].m.sched.jobs, id);
    ReleaseSubtracts(rs[i].m.ledger, rs[i].m.sched.jobs[id].worker, rs[i].m.sched.jobs[id].spec.need);
  }

  /** The job is where its state says: in the heap exactly once iff QUEUED, with no
      trace of an earlier run; on a named live member, without a result, when
      RUNNING; otherwise finished, and with at most one
      pending retry, which needs it FAILED. */
  ghost predicate WhereItBelongs(m: Master, id: string)
    requires id in m.sched.jobs
  {
    var rec := m.sched.jobs[id];
    && rec.spec.id == id
    && multiset(m.sched.queue)[rec.spec] == (if rec.state == Queued then 1 else 0)
    && (rec.state == Queued ==> Blank(rec))
    && (rec.state == Running ==> rec.worker != "" && Named(m.members, rec.worker) && Unreported(rec))
    && PendingRetries(m.timers, id) <= 1
    && (PendingRetries(m.timers, id) == 1 ==> rec.state == Failed)
  }

  lemma {:induction false} AtMostOneTimer(timers: seq<Timer>, id: string)
    requires forall i, j | 0 <= i < j < |timers| :: timers[i].jobId != timers[j].jobId
    ensures PendingRetries(timers, id) <= 1
  {
    if timers != [] {
      var n := |timers| - 1;
      AtMostOneTimer(timers[..n], id);
      TimersNamed(timers[..n], id);
    }
  }

  lemma PlacedByInv(r: Run, id: string)
    requires Inv(r) && id in r.m.sched.jobs
    ensures WhereItBelongs(r.m, id)
  {
    AtMostOneTimer(r.m.timers, id);
    if r.m.sched.jobs[id].state != Failed {
      RunningHasNoTimer(r.m, id);
    }
    assert WellPlaced(r.m.sched.jobs[id], r.m.members);
  }

  /** No job is lost or duplicated, and the heap holds nothing else. */
  lemma NoJobLostOrDuplicated(cfg: Config, es: seq<Event>, rs: seq<Run>, i: nat)
    requires IsRun(cfg, es, rs) && i < |rs|
    ensures forall id | id in rs[i].m.sched.jobs :: WhereItBelongs(rs[i].m, id)
    ensures forall x | x in rs[i].m.sched.queue ::
        InState(rs[i].m.sched, x.id, Queued) && rs[i].m.sched.jobs[x.id].spec == x
    ensures Ordered(rs[i].m.sched.queue)
  {
    hide Steps, Initial;
    Reachable(cfg, es, rs, i);
    HeapHoldsQueued(rs[i].m.sched);
    hide WhereItBelongs, Inv;
    forall id | id in rs[i].m.sched.jobs ensures WhereItBelongs(rs[i].m, id) {
      PlacedByInv(rs[i], id);
    }
  }

  /** A tracked job or group is never forgotten and never changes identity. */
  lemma {:induction false} NobodyForgotten(cfg: Config, es: seq<Event>, rs: seq<Run>, i: nat, j: nat, id: string)
    requires IsRun(cfg, es, rs) && i <= j < |rs| && id in rs[i].m.sched.jobs
    ensures id in rs[j].m.sched.jobs && rs[j].m.sched.jobs[id].spec == rs[i].m.sched.jobs[id].spec
    decreases j
  {
    hide Steps, Initial;
    if i < j {
      NobodyForgotten(cfg, es, rs, i, j - 1, id);
      StepForgetsNobody(cfg, es, rs, j - 1);
    }
  }

  lemma StepForgetsNobody(cfg: Config, es: seq<Event>, rs: seq<Run>, i: nat)
    requires IsRun(cfg, es, rs) && i < |es|
    ensures Keeps(rs[i].m.sched, rs[i + 1].m.sched)
  {
    hide Steps, Initial;
    RunStep(cfg, es, rs, i);
    EffectKeeps(rs[i].m, es[i], rs[i + 1].m);
  }

  /** The job is dequeued in turn p of a dequeue-until-empty. */
  ghost predicate TakesTurn(m: Master, id: string, p: nat) {
    var d := Drained(m.sched.queue);
    p < |d| && d[p].id == id
  }

  lemma SameSpec(m: Master, id: string, p: nat)
    requires Core(m) && id in m.sched.jobs && TakesTurn(m, id, p)
    ensures Drained(m.sched.queue)[p] == m.sched.jobs[id].spec
  {
    DrainSorts(m.sched.queue);
    assert Drained(m.sched.queue)[p] in multiset(m.sched.queue);
  }

  /** Nobody loses its turn: whatever happened to two jobs since state i, dispatches,
      handshake timeouts, failures and retries included, if both wait in state j then
      the one with the smaller priority number gets its turn first, and of two with
      equal numbers the one submitted strictly earlier. */
  lemma NobodyLosesTurn(cfg: Config, es: seq<Event>, rs: seq<Run>, i: nat, j: nat, a: string, b: string, p: nat, q: nat)
    requires IsRun(cfg, es, rs) && i <= j < |rs|
    requires a in rs[i].m.sched.jobs && b in rs[i].m.sched.jobs
    requires var x, y := rs[i].m.sched.jobs[a].spec, rs[i].m.sched.jobs[b].spec;
             x.priority < y.priority || (x.priority == y.priority && x.submitTime < y.submitTime)
    requires TakesTurn(rs[j].m, a, p) && TakesTurn(rs[j].m, b, q)
    ensures p < q
  {
    hide Steps, Initial;
    Reachable(cfg, es, rs, j);
    NobodyForgotten(cfg, es, rs, i, j, a);
    NobodyForgotten(cfg, es, rs, i, j, b);
    SameSpec(rs[j].m, a, p);
    SameSpec(rs[j].m, b, q);
    if rs[i].m.sched.jobs[a].spec.priority < rs[i].m.sched.jobs[b].spec.priority {
      SmallerPriorityFirst(rs[j].m.sched.queue, p, q);
    } else {
      EarlierSubmissionFirst(rs[j].m.sched.queue, p, q);
    }
  }

  /** A job has a turn exactly when it is QUEUED, and then only one. */
  lemma QueuedTakesOneTurn(cfg: Config, es: seq<Event>, rs: seq<Run>, i: nat, id: string)
    requires IsRun(cfg, es, rs) && i < |rs| && id in rs[i].m.sched.jobs
    ensures (exists p: nat :: TakesTurn(rs[i].m, id, p)) <==> rs[i].m.sched.jobs[id].state == Queued
    ensures forall p: nat, q: nat | TakesTurn(rs[i].m, id, p) && TakesTurn(rs[i].m, id, q) :: p == q
  {
    hide Steps, Initial;
    Reachable(cfg, es, rs, i);
    OneTurn(rs[i].m, id);
  }

  lemma OneTurn(m: Master, id: string)
    requires Core(m) && id in m.sched.jobs
    ensures (exists p: nat :: TakesTurn(m, id, p)) <==> m.sched.jobs[id].state == Queued
    ensures forall p: nat, q: nat | TakesTurn(m, id, p) && TakesTurn(m, id, q) :: p == q
  {
    var d := Drained(m.sched.queue);
    var spec := m.sched.jobs[id].spec;
    DrainSorts(m.sched.queue);
    assert multiset(d)[spec] == if m.sched.jobs[id].state == Queued then 1 else 0;
    forall p: nat | TakesTurn(m, id, p) ensures d[p] == spec {
      SameSpec(m, id, p);
    }
    if m.sched.jobs[id].state == Queued {
      assert spec in multiset(d);
      var p: nat :| p < |d| && d[p] == spec;
      assert TakesTurn(m, id, p);
    }
    forall p: nat, q: nat | TakesTurn(m, id, p) && TakesTurn(m, id, q) ensures p == q {
      if p != q {
        OccursTwice(d, if p < q then p else q, if p < q then q else p, spec);
      }
    }
  }

  lemma OccursTwice(d: seq<JobSpec>, p: nat, q: nat, x: JobSpec)
    requires p < q < |d| && d[p] == x && d[q] == x
    ensures multiset(d)[x] >= 2
  {
    assert d == d[..p] + [x] + d[p + 1..q] + [x] + d[q + 1..];
  }

  /** A whole dispatch tick: after the gangs had their turn the invariant holds, and
      from there phases 1 and 2 conserve work for single jobs. */
  lemma TickConserves(cfg: Config, es: seq<Event>, rs: seq<Run>, i: nat)
    requires IsRun(cfg, es, rs) && i < |es| && es[i].Ticked?
    requires forall g | g in es[i].pending :: g.numNodes >= 1
    ensures var mid := GangPhase(rs[i].m, es[i].pending, cfg.matches, es[i].now);
            && rs[i + 1].m == SinglePhase(mid, cfg.matches, es[i].now)
            && Core(mid)
            && (SingleOnTop(mid) ==> Conserves(mid, rs[i + 1].m, cfg.matches, es[i].now))
            && (!SingleOnTop(mid) ==> rs[i + 1].m == mid)
  {
    RunStep(cfg, es, rs, i);
    assert Steps(cfg, rs[i], es[i], rs[i + 1]);
    TickPhases(rs[i].m, es[i].pending, cfg.matches, es[i].now);
  }

  lemma TickPhases(m: Master, gs: seq<GroupRec>, matches: Matcher, now: int)
    requires Static(m) && ListsPending(m.sched, gs) && forall g | g in gs :: g.numNodes >= 1
    ensures var mid := GangPhase(m, gs, matches, now);
            && Core(mid)
            && (SingleOnTop(mid) ==> Conserves(mid, Tick(m, gs, matches, now), matches, now))
            && (!SingleOnTop(mid) ==> Tick(m, gs, matches, now) == mid)
  {
    PendingListed(m, gs);
    GangPhaseKeeps(m, gs, matches, now);
    WorkConserving(GangPhase(m, gs, matches, now), matches, now);
  }
}
