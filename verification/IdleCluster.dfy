/** The simplest run that does something: on a new master a job that fits the only
    member starts there at the next tick. */
module IdleCluster {
  import opened Types
  import opened Scheduling
  import opened MasterSteps
  import opened Placement
  import opened GangScheduling
  import opened DispatchTick
  import opened Events
  import opened Runs

  /** The member can take the job on an empty ledger. */
  predicate Suits(cfg: Config, req: JobRequest, x: Member) {
    && req.need.NonNegative() && x.name != "" && x.hasMeta && cfg.matches(req.requirement, x)
    && req.need.gpus <= x.total.gpus && req.need.cpus <= x.total.cpus && req.need.mem <= x.total.mem
  }

  function SpecOf(cfg: Config, id: string, req: JobRequest, now: int): JobSpec {
    SingleSpec(Fresh(0), cfg, id, req, now)
  }

  /** The master after the submission. */
  function Submitted(cfg: Config, id: string, req: JobRequest, now: int): Master {
    SubmitJob(Fresh(0), cfg, id, req, now)
  }

  lemma SubmissionQueues(cfg: Config, id: string, req: JobRequest, now: int)
    ensures Submitted(cfg, id, req, now).sched.queue == [SpecOf(cfg, id, req, now)]
  {
    var spec := SpecOf(cfg, id, req, now);
    assert [] + [spec] == [spec];
  }

  /** And after the member joined. */
  function Joined(cfg: Config, id: string, req: JobRequest, now: int, x: Member): Master {
    var m := Submitted(cfg, id, req, now);
    m.(members := m.members + [x])
  }

  lemma OnTopStarts(m: Master, m': Master, matches: Matcher, x: Member, now: int)
    requires SingleOnTop(m) && m.members == [x] && TopStarts(m, m', matches, now)
    ensures InState(m'.sched, m.sched.queue[0].id, Running)
    ensures m'.sched.jobs[m.sched.queue[0].id].worker == x.name
  {
    var k: nat :| TopStartsAt(m, m', matches, now, k);
    assert m.members[k] == x;
  }

  lemma TopCanStart(m: Master, matches: Matcher, x: Member, now: int)
    requires Core(m) && SingleOnTop(m) && m.members == [x]
    requires Takes(m.breaker, m.ledger, matches, m.sched.queue[0], x, now)
    ensures TopStarts(m, SinglePhase(m, matches, now), matches, now)
  {
    assert x in m.members && m.sched.queue[0] in m.sched.queue;
    assert CanTake(m, matches, m.sched.queue[0], x, now);
    hide Core, SinglePhase, Takes, CanTake, StartsOne, TopStarts, StartsSome;
    WorkConserving(m, matches, now);
  }

  /** A single queued job starts on the only member if that can take it. */
  lemma OnlyJobStarts(m: Master, matches: Matcher, spec: JobSpec, x: Member, now: int)
    requires Core(m) && m.sched.queue == [spec] && spec.groupId == "" && m.members == [x]
    requires Takes(m.breaker, m.ledger, matches, spec, x, now)
    ensures InState(SinglePhase(m, matches, now).sched, spec.id, Running)
    ensures SinglePhase(m, matches, now).sched.jobs[spec.id].worker == x.name
  {
    hide Core, SinglePhase, Takes, TopStarts;
    TopCanStart(m, matches, x, now);
    OnTopStarts(m, SinglePhase(m, matches, now), matches, x, now);
  }

  // ---------- as a run ----------

  function AfterSubmission(cfg: Config, id: string, req: JobRequest, now: int): Run {
    Newborn(0).(m := Submitted(cfg, id, req, now))
  }

  function AfterJoining(cfg: Config, id: string, req: JobRequest, now: int, x: Member): Run {
    Newborn(0).(m := Joined(cfg, id, req, now, x))
  }

  lemma FirstStep(cfg: Config, id: string, req: JobRequest, now: int)
    requires req.need.NonNegative()
    ensures Steps(cfg, Newborn(0), JobSubmitted(id, req, now), AfterSubmission(cfg, id, req, now))
  {
    var r' := AfterSubmission(cfg, id, req, now);
    assert NewlyRunning(Fresh(0), r'.m) == {};
  }

  lemma SecondStep(cfg: Config, id: string, req: JobRequest, now: int, x: Member)
    requires x.name != ""
    ensures Steps(cfg, AfterSubmission(cfg, id, req, now), MemberJoined(x), AfterJoining(cfg, id, req, now, x))
  {
    assert NewlyRunning(Submitted(cfg, id, req, now), Joined(cfg, id, req, now, x)) == {};
    assert Submitted(cfg, id, req, now).members == [];
  }

  lemma JoinedInv(cfg: Config, id: string, req: JobRequest, now: int, x: Member)
    requires req.need.NonNegative() && x.name != ""
    ensures Inv(AfterJoining(cfg, id, req, now, x))
  {
    NewbornInitial(0);
    InitialInv(Newborn(0));
    FirstStep(cfg, id, req, now);
    SecondStep(cfg, id, req, now, x);
    hide Steps, Inv;
    StepInv(cfg, Newborn(0), JobSubmitted(id, req, now), AfterSubmission(cfg, id, req, now));
    StepInv(cfg, AfterSubmission(cfg, id, req, now), MemberJoined(x), AfterJoining(cfg, id, req, now, x));
  }

  lemma ThirdStepPossible(cfg: Config, id: string, req: JobRequest, now: int, x: Member)
    ensures Possible(AfterJoining(cfg, id, req, now, x).m, Ticked([], now))
    ensures Next(cfg, AfterJoining(cfg, id, req, now, x), Ticked([], now)).m
         == SinglePhase(Joined(cfg, id, req, now, x), cfg.matches, now)
  {
  }

  lemma JoinedSuits(cfg: Config, id: string, req: JobRequest, now: int, x: Member)
    requires Suits(cfg, req, x)
    ensures var m := Joined(cfg, id, req, now, x);
            Takes(m.breaker, m.ledger, cfg.matches, SpecOf(cfg, id, req, now), x, now) && m.members == [x]
  {
    assert [] + [x] == [x];
  }

  /** The job runs on the member after the tick. */
  lemma TickStartsIt(cfg: Config, id: string, req: JobRequest, now: int, x: Member)
    requires Suits(cfg, req, x)
    ensures var m' := SinglePhase(Joined(cfg, id, req, now, x), cfg.matches, now);
            InState(m'.sched, id, Running) && m'.sched.jobs[id].worker == x.name
  {
    var m := Joined(cfg, id, req, now, x);
    JoinedInv(cfg, id, req, now, x);
    SubmissionQueues(cfg, id, req, now);
    JoinedSuits(cfg, id, req, now, x);
    assert Core(m) && m.sched.queue == [SpecOf(cfg, id, req, now)];
    hide Core, Inv, Joined, SinglePhase, Takes;
    OnlyJobStarts(m, cfg.matches, SpecOf(cfg, id, req, now), x, now);
  }

  /** Some run of three events ends with the job running on the member. */
  ghost predicate RunsAfterThree(cfg: Config, id: string, node: string) {
    exists es: seq<Event>, rs: seq<Run> ::
      && IsRun(cfg, es, rs) && |es| == 3
      && InState(rs[3].m.sched, id, Running) && rs[3].m.sched.jobs[id].worker == node
  }

  lemma ThreeSteps(cfg: Config, es: seq<Event>, rs: seq<Run>)
    requires |es| == 3 && |rs| == 4 && Initial(rs[0])
    requires Steps(cfg, rs[0], es[0], rs[1]) && Steps(cfg, rs[1], es[1], rs[2]) && Steps(cfg, rs[2], es[2], rs[3])
    ensures IsRun(cfg, es, rs)
  {
    hide Steps, Initial;
    forall i | 0 <= i < |es| ensures Steps(cfg, rs[i], es[i], rs[i + 1]) {
      assert i == 0 || i == 1 || i == 2;
    }
  }

  /** A job is submitted to a new master, a member that suits it joins, the
      dispatch loop ticks: the job runs there. */
  lemma IdleClusterRunsJob(cfg: Config, id: string, req: JobRequest, now: int, x: Member)
    requires Suits(cfg, req, x)
    ensures RunsAfterThree(cfg, id, x.name)
  {
    var r2 := AfterJoining(cfg, id, req, now, x);
    NewbornInitial(0);
    FirstStep(cfg, id, req, now);
    SecondStep(cfg, id, req, now, x);
    ThirdStepPossible(cfg, id, req, now, x);
    TickStartsIt(cfg, id, req, now, x);
    var r3 := Next(cfg, r2, Ticked([], now));
    assert Steps(cfg, r2, Ticked([], now), r3);
    hide Steps, Initial, SinglePhase, Possible, Next, RunsAfterThree;
    Packed(cfg, [JobSubmitted(id, req, now), MemberJoined(x), Ticked([], now)],
           [Newborn(0), AfterSubmission(cfg, id, req, now), r2, r3], id, x.name);
  }

  lemma Packed(cfg: Config, es: seq<Event>, rs: seq<Run>, id: string, node: string)
    requires |es| == 3 && |rs| == 4 && Initial(rs[0])
    requires Steps(cfg, rs[0], es[0], rs[1]) && Steps(cfg, rs[1], es[1], rs[2]) && Steps(cfg, rs[2], es[2], rs[3])
    requires InState(rs[3].m.sched, id, Running) && rs[3].m.sched.jobs[id].worker == node
    ensures RunsAfterThree(cfg, id, node)
  {
    hide Steps, Initial;
    ThreeSteps(cfg, es, rs);
  }
}
