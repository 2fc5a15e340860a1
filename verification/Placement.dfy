/** The core invariant of the master: the heap holds exactly the QUEUED jobs, a
    RUNNING job sits on a named live member, and the resource ledger equals the
    sum over RUNNING jobs and stays within what each member advertises. */
module Placement {
  import opened Types
  import opened HeapOrder
  import opened Scheduling
  import opened Ledger
  import opened MasterSteps

  type Jobs = map<string, JobRec>

  ghost predicate Keyed(jobs: Jobs) {
    forall id | id in jobs :: jobs[id].spec.id == id && jobs[id].spec.need.NonNegative()
  }

  /** How often the heap has to hold the job. */
  function Slots(rec: JobRec): multiset<JobSpec> {
    if rec.state == Queued then multiset{rec.spec} else multiset{}
  }

  /** A tracked job is in the heap exactly once iff it is QUEUED, and the heap
      holds nothing else. */
  ghost predicate HeapExact(jobs: Jobs, queue: seq<JobSpec>) {
    && Ordered(queue)
    && (forall x | x in multiset(queue) :: x.id in jobs && jobs[x.id].spec == x)
    && (forall id | id in jobs :: multiset(queue)[jobs[id].spec] == if jobs[id].state == Queued then 1 else 0)
  }

  ghost predicate Named(members: seq<Member>, name: string) {
    exists x :: x in members && x.name == name
  }

  /** A queued job is blank and holds no node; a running one holds a live, named
      node and has no result yet. */
  ghost predicate WellPlaced(rec: JobRec, members: seq<Member>) {
    && (rec.state == Queued ==> Blank(rec))
    && (rec.state == Running ==> rec.worker != "" && Named(members, rec.worker) && Unreported(rec))
  }

  ghost predicate Roster(members: seq<Member>) {
    && (forall x | x in members :: x.name != "")
    && (forall i, j | 0 <= i < j < |members| :: members[i].name != members[j].name)
  }

  ghost predicate LedgerExact(jobs: Jobs, l: Ledger) {
    forall node :: Held(l, node) == Load(jobs, node)
  }

  ghost predicate WithinTotals(l: Ledger, members: seq<Member>) {
    forall x | x in members :: Held(l, x.name).Within(x.total)
  }

  ghost predicate CoreOf(jobs: Jobs, queue: seq<JobSpec>, l: Ledger, members: seq<Member>) {
    && Keyed(jobs)
    && HeapExact(jobs, queue)
    && (forall id | id in jobs :: WellPlaced(jobs[id], members))
    && Roster(members)
    && LedgerExact(jobs, l)
    && WithinTotals(l, members)
  }

  ghost predicate Core(m: Master) {
    CoreOf(m.sched.jobs, m.sched.queue, m.ledger, m.members)
  }

  // ---------- changing one job ----------

  ghost predicate QueueFollows(queue: seq<JobSpec>, queue': seq<JobSpec>, old_: JobRec, new_: JobRec) {
    && Ordered(queue')
    && multiset(queue') == multiset(queue) - Slots(old_) + Slots(new_)
  }

  ghost predicate LedgerFollows(l: Ledger, l': Ledger, old_: JobRec, new_: JobRec) {
    forall node :: Held(l', node) == Held(l, node).Minus(Share(old_, node)).Plus(Share(new_, node))
  }

  lemma HeapFollows(jobs: Jobs, queue: seq<JobSpec>, id: string, rec: JobRec, queue': seq<JobSpec>)
    requires Keyed(jobs) && HeapExact(jobs, queue)
    requires id in jobs && rec.spec == jobs[id].spec
    requires QueueFollows(queue, queue', jobs[id], rec)
    ensures Keyed(jobs[id := rec]) && HeapExact(jobs[id := rec], queue')
  {
    var jobs' := jobs[id := rec];
    forall k | k in jobs'
      ensures multiset(queue')[jobs'[k].spec] == if jobs'[k].state == Queued then 1 else 0
    {
      assert k != id ==> jobs'[k].spec != rec.spec;
    }
    forall x | x in multiset(queue') ensures x.id in jobs' && jobs'[x.id].spec == x {
      assert x in multiset(queue) || x == rec.spec;
    }
  }

  lemma LoadFollows(jobs: Jobs, l: Ledger, id: string, rec: JobRec, l': Ledger)
    requires LedgerExact(jobs, l) && id in jobs && LedgerFollows(l, l', jobs[id], rec)
    ensures LedgerExact(jobs[id := rec], l')
  {
    forall node ensures Held(l', node) == Load(jobs[id := rec], node) {
      LoadUpdated(jobs, id, rec, node);
    }
  }

  /** The totals can only be broken by a job that starts. */
  lemma TotalsFollow(l: Ledger, old_: JobRec, rec: JobRec, l': Ledger, members: seq<Member>)
    requires WithinTotals(l, members) && LedgerFollows(l, l', old_, rec)
    requires old_.spec.need.NonNegative()
    requires rec.state == Running ==> forall x | x in members && x.name == rec.worker ::
        Held(l', x.name).Within(x.total)
    ensures WithinTotals(l', members)
  {
    forall x | x in members ensures Held(l', x.name).Within(x.total) {
      if !(rec.state == Running && x.name == rec.worker) {
        assert Held(l, x.name).Within(x.total);
        assert Share(rec, x.name) == NOTHING;
      }
    }
  }

  /** One job changes state, the heap and the ledger follow: the invariant holds. */
  lemma CoreFollows(jobs: Jobs, queue: seq<JobSpec>, l: Ledger, members: seq<Member>,
                    id: string, rec: JobRec, queue': seq<JobSpec>, l': Ledger)
    requires CoreOf(jobs, queue, l, members)
    requires id in jobs && rec.spec == jobs[id].spec && WellPlaced(rec, members)
    requires QueueFollows(queue, queue', jobs[id], rec) && LedgerFollows(l, l', jobs[id], rec)
    requires rec.state == Running ==> forall x | x in members && x.name == rec.worker ::
        Held(l', x.name).Within(x.total)
    ensures CoreOf(jobs[id := rec], queue', l', members)
  {
    HeapFollows(jobs, queue, id, rec, queue');
    LoadFollows(jobs, l, id, rec, l');
    TotalsFollow(l, jobs[id], rec, l', members);
  }

  lemma StaysUnplaced(l: Ledger, old_: JobRec, rec: JobRec)
    requires old_.state != Running && rec.state != Running
    ensures LedgerFollows(l, l, old_, rec)
  {
    forall node ensures Held(l, node) == Held(l, node).Minus(Share(old_, node)).Plus(Share(rec, node)) {
      assert Share(old_, node) == NOTHING && Share(rec, node) == NOTHING;
    }
  }

  lemma MinusPlusNothing(a: Res, b: Res)
    ensures a.Minus(b).Plus(NOTHING) == a.Minus(b)
  {
  }

  lemma MinusNothing(a: Res)
    ensures a.Minus(NOTHING) == a
  {
  }

  /** Releasing a running job's demand is never clamped. */
  lemma ReleaseFollows(jobs: Jobs, l: Ledger, id: string, rec: JobRec)
    requires Keyed(jobs) && LedgerExact(jobs, l)
    requires id in jobs && jobs[id].state == Running && rec.state != Running
    ensures LedgerFollows(l, Released(l, jobs[id].worker, jobs[id].spec.need), jobs[id], rec)
    ensures Covers(Held(l, jobs[id].worker), jobs[id].spec.need)
  {
    var job := jobs[id];
    LoadCoversJob(jobs, id);
    ReleaseSubtracts(l, job.worker, job.spec.need);
    var l' := Released(l, job.worker, job.spec.need);
    forall node ensures Held(l', node) == Held(l, node).Minus(Share(job, node)).Plus(Share(rec, node)) {
      assert Share(rec, node) == NOTHING;
      MinusPlusNothing(Held(l, node), Share(job, node));
      if node != job.worker {
        assert Share(job, node) == NOTHING;
        MinusNothing(Held(l, node));
      }
    }
  }

  // ---------- the heap under removal and insertion ----------

  /** The back pointer of a queued job is found, so exactly that job leaves. */
  lemma WithoutTakesJob(jobs: Jobs, queue: seq<JobSpec>, id: string)
    requires Keyed(jobs) && HeapExact(jobs, queue) && id in jobs && jobs[id].state == Queued
    ensures Ordered(Without(queue, id))
    ensures multiset(Without(queue, id)) == multiset(queue) - multiset{jobs[id].spec}
  {
    assert jobs[id].spec in multiset(queue);
    var k :| 0 <= k < |queue| && queue[k] == jobs[id].spec;
    var p := Position(queue, id);
    assert p < |queue|;
    assert queue[p] in multiset(queue);
    RemoveCorrect(queue, p);
  }

  lemma PositionTakesJob(jobs: Jobs, queue: seq<JobSpec>, p: nat)
    requires Keyed(jobs) && HeapExact(jobs, queue) && p < |queue|
    ensures Ordered(Removed(queue, p))
    ensures multiset(Removed(queue, p)) == multiset(queue) - multiset{queue[p]}
    ensures queue[p].id in jobs && jobs[queue[p].id].spec == queue[p] && jobs[queue[p].id].state == Queued
  {
    RemoveCorrect(queue, p);
    assert queue[p] in multiset(queue);
  }
}
