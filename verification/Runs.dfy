/** Runs of the master.  Besides the master itself a run keeps three books that
    only the statements read: which jobs were acknowledged since their last
    dispatch, and per job the reported failures and the backoff scheduled so
    far. */
module Runs {
  import opened Types
  import opened Scheduling
  import opened Ledger
  import opened MasterSteps
  import opened Continuity
  import opened Events

  datatype Run = Run(
    m: Master,
    acked: set<string>,
    failures: map<string, int>,
    waited: map<string, int>)

  ghost function NewlyRunning(m: Master, m': Master): set<string> {
    set id | id in m'.sched.jobs && m'.sched.jobs[id].state == Running && !InState(m.sched, id, Running)
  }

  /** A failure report that reaches its job while it runs. */
  predicate EffectiveFailure(m: Master, e: Event) {
    e.Reported? && !e.result.success && InState(m.sched, e.result.jobId, Running)
  }

  function Added(book: map<string, int>, id: string, n: int): map<string, int> {
    book[id := Get(book, id) + n]
  }

  /** The run after the master moved to m'. */
  ghost function Moved(r: Run, e: Event, m': Master): Run {
    var started := NewlyRunning(r.m, m');
    Run(m',
        (r.acked - started) + (if e.Acknowledged? then {e.id} else {}),
        if EffectiveFailure(r.m, e) then Added(r.failures, e.result.jobId, 1) else r.failures,
        if EffectiveFailure(r.m, e) && Retries(r.m.sched.jobs[e.result.jobId], e.result)
        then Added(r.waited, e.result.jobId, Backoff(r.m.sched.jobs[e.result.jobId].retryCount + 1)) else r.waited)
  }

  ghost function Next(cfg: Config, r: Run, e: Event): Run
    requires Possible(r.m, e)
  {
    Moved(r, e, Apply(cfg, r.m, e))
  }

  // ---------- the invariant ----------

  ghost predicate Inv(r: Run) {
    Static(r.m) && TimersOk(r.m)
  }

  // ---------- identities ----------

  /** Identities are kept, and groups only move forward. */
  ghost predicate Keeps(s: Sched, s': Sched) {
    && (forall id | id in s.jobs :: id in s'.jobs && s'.jobs[id].spec == s.jobs[id].spec)
    && (forall gid | gid in s.groups :: gid in s'.groups && Moves(s.groups[gid], s'.groups[gid]))
  }

  lemma EvolvesKeeps(s: Sched, s': Sched)
    requires Evolves(s, s')
    ensures Keeps(s, s')
  {
    forall id | id in s.jobs ensures id in s'.jobs && s'.jobs[id].spec == s.jobs[id].spec {
      assert Follows(s.jobs[id], s'.jobs[id]);
    }
  }

  /** No event forgets a job or a group. */
  lemma EffectKeeps(m: Master, e: Event, m': Master)
    requires Effect(m, e, m') && Sound(m.sched) && TimersOk(m)
    ensures Keeps(m.sched, m'.sched)
  {
    match e {
      case JobSubmitted(_, _, _) =>
      case GangSubmitted(_, _, _) =>
      case Acknowledged(_) =>
      case RetryDue(i, _) =>
        assert TimerOk(m.sched, m.timers[i]);
        RetryEffect(m, i);
      case WroteBack =>
      case _ => EvolvesKeeps(m.sched, m'.sched);
    }
  }

  // ---------- the timers ----------

  lemma SteadyTimers(m: Master, m': Master)
    requires TimersOk(m) && Evolves(m.sched, m'.sched) && m'.timers == m.timers
    ensures TimersOk(m')
  {
    forall t | t in m'.timers ensures TimerOk(m'.sched, t) {
      assert TimerOk(m.sched, t);
      assert Follows(m.sched.jobs[t.jobId], m'.sched.jobs[t.jobId]);
    }
  }

  lemma AddedTimer(m: Master, m': Master, t: Timer)
    requires TimersOk(m) && m'.sched == m.sched && m'.timers == m.timers + [t]
    requires TimerOk(m.sched, t) && forall u | u in m.timers :: u.jobId != t.jobId
    ensures TimersOk(m')
  {
  }

  /** A running job has no timer, so a report never gives a job a second one. */
  lemma ReportTimers(m: Master, result: Result, now: int, m': Master)
    requires TimersOk(m) && Effect(m, Reported(result, now), m')
    ensures TimersOk(m')
  {
    var quiet := m'.(timers := m.timers, deadLetters := m.deadLetters);
    SteadyTimers(m, quiet);
    if EffectiveFailure(m, Reported(result, now)) && Retries(m.sched.jobs[result.jobId], result) {
      forall t | t in m.timers ensures t.jobId != result.jobId {
        assert TimerOk(m.sched, t);
      }
      AddedTimer(quiet, m', Timer(result.jobId, now + Backoff(m.sched.jobs[result.jobId].retryCount + 1)));
    }
  }

  lemma RetryTimers(m: Master, i: nat)
    requires TimersOk(m) && Sound(m.sched) && i < |m.timers|
    ensures TimersOk(RetryFires(m, i))
  {
    assert TimerOk(m.sched, m.timers[i]);
    RetryEffect(m, i);
    var m' := RetryFires(m, i);
    var id := m.timers[i].jobId;
    forall k | 0 <= k < |m'.timers|
      ensures m'.timers[k].jobId != id && TimerOk(m'.sched, m'.timers[k])
    {
      assert m'.timers[k] == m.timers[if k < i then k else k + 1];
      assert TimerOk(m.sched, m'.timers[k]);
    }
  }

  lemma UntouchedTimers(m: Master, m': Master)
    requires TimersOk(m) && m'.timers == m.timers
    requires forall id | id in m.sched.jobs :: id in m'.sched.jobs && m'.sched.jobs[id] == m.sched.jobs[id]
    ensures TimersOk(m')
  {
    forall t | t in m'.timers ensures TimerOk(m'.sched, t) {
      assert TimerOk(m.sched, t);
    }
  }

  lemma EffectTimers(m: Master, e: Event, m': Master)
    requires TimersOk(m) && Sound(m.sched) && Effect(m, e, m')
    ensures TimersOk(m')
  {
    match e {
      case JobSubmitted(_, _, _) => UntouchedTimers(m, m');
      case GangSubmitted(_, _, _) => UntouchedTimers(m, m');
      case Reported(result, now) => ReportTimers(m, result, now, m');
      case RetryDue(i, _) => RetryTimers(m, i);
      case Acknowledged(_) => UntouchedTimers(m, m');
      case WroteBack => UntouchedTimers(m, m');
      case _ => SteadyTimers(m, m');
    }
  }

  // ---------- every run ----------

  /** Every event keeps the invariant. */
  lemma EventInv(cfg: Config, r: Run, e: Event)
    requires Inv(r) && Possible(r.m, e)
    ensures Inv(Next(cfg, r, e))
    ensures Effect(r.m, e, Apply(cfg, r.m, e))
  {
    var m' := Apply(cfg, r.m, e);
    assert e.RetryDue? ==> TimerOk(r.m.sched, r.m.timers[e.timer]);
    EventKeeps(cfg, r.m, e);
    EffectKeeps(r.m, e, m');
    EffectTimers(r.m, e, m');
  }

  ghost predicate Steps(cfg: Config, r: Run, e: Event, r': Run) {
    Possible(r.m, e) && r' == Next(cfg, r, e)
  }

  /** A step keeps the invariant and has its event's effect. */
  lemma StepInv(cfg: Config, r: Run, e: Event, r': Run)
    requires Inv(r) && Steps(cfg, r, e, r')
    ensures Inv(r') && Effect(r.m, e, r'.m) && r' == Moved(r, e, r'.m)
  {
    EventInv(cfg, r, e);
  }

  /** A run: the events, and the states before, between and after them. */
  ghost predicate IsRun(cfg: Config, es: seq<Event>, rs: seq<Run>) {
    && |rs| == |es| + 1
    && Initial(rs[0])
    && (forall i | 0 <= i < |es| :: Steps(cfg, rs[i], es[i], rs[i + 1]))
  }

  /** A master that has just started: only queued jobs, nothing placed. */
  ghost predicate Initial(r: Run) {
    && Static(r.m)
    && (forall id | id in r.m.sched.jobs :: r.m.sched.jobs[id].state == Queued)
    && r.m.timers == [] && r.m.pending == map[] && r.m.sent == []
    && r.acked == {}
  }

  lemma InitialInv(r: Run)
    requires Initial(r)
    ensures Inv(r)
  {
  }

  lemma StartInv(cfg: Config, es: seq<Event>, rs: seq<Run>)
    requires IsRun(cfg, es, rs)
    ensures Inv(rs[0])
  {
    InitialInv(rs[0]);
  }

  lemma StepReachable(cfg: Config, es: seq<Event>, rs: seq<Run>, i: nat)
    requires IsRun(cfg, es, rs) && 0 < i < |rs| && Inv(rs[i - 1])
    ensures Inv(rs[i])
  {
    assert Steps(cfg, rs[i - 1], es[i - 1], rs[(i - 1) + 1]);
    StepInv(cfg, rs[i - 1], es[i - 1], rs[i]);
  }

  /** Every state of every run satisfies the invariant. */
  lemma {:induction false} Reachable(cfg: Config, es: seq<Event>, rs: seq<Run>, i: nat)
    requires IsRun(cfg, es, rs) && i < |rs|
    ensures Inv(rs[i])
  {
    hide Inv, IsRun;
    if i == 0 {
      StartInv(cfg, es, rs);
    } else {
      Reachable(cfg, es, rs, i - 1);
      StepReachable(cfg, es, rs, i);
    }
  }

  /** The run of a master that starts with an empty database. */
  function Newborn(maxQueueSize: int): Run {
    Run(Fresh(maxQueueSize), {}, map[], map[])
  }

  lemma NewbornInitial(maxQueueSize: int)
    ensures Initial(Newborn(maxQueueSize))
  {
    var m := Fresh(maxQueueSize);
    forall node ensures Held(m.ledger, node) == Load(m.sched.jobs, node) {
    }
  }

  /** What every step of a run is known to do. */
  lemma RunStep(cfg: Config, es: seq<Event>, rs: seq<Run>, i: nat)
    requires IsRun(cfg, es, rs) && i < |es|
    ensures Inv(rs[i]) && Inv(rs[i + 1])
    ensures Effect(rs[i].m, es[i], rs[i + 1].m) && rs[i + 1] == Moved(rs[i], es[i], rs[i + 1].m)
  {
    Reachable(cfg, es, rs, i);
    assert Steps(cfg, rs[i], es[i], rs[i + 1]);
    StepInv(cfg, rs[i], es[i], rs[i + 1]);
  }

  // ---------- reachable states ----------

  /** Some run from an empty database ends like this. */
  ghost predicate Reached(cfg: Config, r: Run) {
    exists es: seq<Event>, rs: seq<Run> :: Leads(cfg, es, rs, r)
  }

  ghost predicate Leads(cfg: Config, es: seq<Event>, rs: seq<Run>, r: Run) {
    IsRun(cfg, es, rs) && rs[0] == Newborn(0) && rs[|es|] == r
  }

  lemma NewbornReached(cfg: Config)
    ensures Reached(cfg, Newborn(0))
  {
    NewbornInitial(0);
    assert Leads(cfg, [], [Newborn(0)], Newborn(0));
  }

  lemma LeadsOn(cfg: Config, es: seq<Event>, rs: seq<Run>, r: Run, e: Event, r': Run)
    requires Leads(cfg, es, rs, r) && Steps(cfg, r, e, r')
    ensures Leads(cfg, es + [e], rs + [r'], r')
  {
    hide Steps, Initial;
    var es', rs' := es + [e], rs + [r'];
    forall i | 0 <= i < |es'| ensures Steps(cfg, rs'[i], es'[i], rs'[i + 1]) {
      if i < |es| {
        assert Steps(cfg, rs[i], es[i], rs[i + 1]);
      }
    }
  }

  lemma StepReached(cfg: Config, r: Run, e: Event, r': Run)
    requires Reached(cfg, r) && Steps(cfg, r, e, r')
    ensures Reached(cfg, r')
  {
    hide Steps, Leads;
    var es, rs :| Leads(cfg, es, rs, r);
    LeadsOn(cfg, es, rs, r, e, r');
  }

  /** The next state, whatever possible event comes. */
  lemma NextReached(cfg: Config, r: Run, e: Event)
    requires Reached(cfg, r) && Possible(r.m, e)
    ensures Reached(cfg, Next(cfg, r, e)) && Next(cfg, r, e).m == Apply(cfg, r.m, e)
  {
    assert Steps(cfg, r, e, Next(cfg, r, e));
    hide Steps, Reached;
    StepReached(cfg, r, e, Next(cfg, r, e));
  }

  lemma ReachedInv(cfg: Config, r: Run)
    requires Reached(cfg, r)
    ensures Inv(r)
  {
    var es, rs :| Leads(cfg, es, rs, r);
    hide Steps, Initial, Inv;
    Reachable(cfg, es, rs, |es|);
  }
}
