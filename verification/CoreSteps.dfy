/** Every piece of every master step keeps the core invariant. */
module CoreSteps {
  import opened Types
  import opened HeapOrder
  import opened Scheduling
  import opened Ledger
  import opened MasterSteps
  import opened Placement

  // ---------- jobs leave QUEUED or RUNNING ----------

  lemma CancelQueuedCore(m: Master, id: string, now: int)
    requires Core(m) && InState(m.sched, id, Queued)
    ensures Core(m.(sched := Cancel(m.sched, id, now)))
  {
    var s := m.sched;
    var rec := s.jobs[id].(state := Cancelled, endTime := now);
    WithoutTakesJob(s.jobs, s.queue, id);
    StaysUnplaced(m.ledger, s.jobs[id], rec);
    CoreFollows(s.jobs, s.queue, m.ledger, m.members, id, rec, Without(s.queue, id), m.ledger);
  }

  /** A job that stops running gives back what it held. */
  lemma StopCore(m: Master, id: string, rec: JobRec)
    requires Core(m) && InState(m.sched, id, Running)
    requires rec.spec == m.sched.jobs[id].spec && rec.state != Running && rec.state != Queued
    ensures CoreOf(m.sched.jobs[id := rec], m.sched.queue, ReleasedIfPlaced(m.ledger, m.sched.jobs[id]), m.members)
  {
    var s := m.sched;
    ReleaseFollows(s.jobs, m.ledger, id, rec);
    assert WellPlaced(s.jobs[id], m.members);
    CoreFollows(s.jobs, s.queue, m.ledger, m.members, id, rec, s.queue,
                Released(m.ledger, s.jobs[id].worker, s.jobs[id].spec.need));
  }

  lemma CancelJobCore(m: Master, id: string, now: int)
    requires Core(m)
    ensures Core(CancelJob(m, id, now))
  {
    if InState(m.sched, id, Queued) {
      assert WellPlaced(m.sched.jobs[id], m.members);
      CancelQueuedCore(m, id, now);
    } else if InState(m.sched, id, Running) {
      assert WellPlaced(m.sched.jobs[id], m.members);
      StopCore(m, id, m.sched.jobs[id].(state := Cancelled, endTime := now));
    }
  }

  lemma {:induction false} CancelSiblingsCore(m: Master, ids: seq<string>, spared: string, now: int)
    requires Core(m)
    ensures Core(CancelSiblings(m, ids, spared, now))
    decreases |ids|
  {
    if ids != [] {
      CancelJobCore(m, ids[0], now);
      CancelSiblingsCore(if ids[0] == spared then m else CancelJob(m, ids[0], now), ids[1..], spared, now);
    }
  }

  lemma CancelStartsNone(s: Sched, id: string, now: int, ids: seq<string>)
    requires forall k | k in ids :: !InState(s, k, Running)
    ensures forall k | k in ids :: !InState(Cancel(s, id, now), k, Running)
  {
  }

  lemma CancelIdleCore(m: Master, id: string, now: int)
    requires Core(m) && !InState(m.sched, id, Running)
    ensures Core(m.(sched := Cancel(m.sched, id, now)))
  {
    if InState(m.sched, id, Queued) {
      CancelQueuedCore(m, id, now);
    } else {
      assert m.(sched := Cancel(m.sched, id, now)) == m;
    }
  }

  /** The gang timeout cancels without releasing; that is sound for ranks that
      are not running. */
  lemma {:induction false} CancelRanksCore(m: Master, ids: seq<string>, now: int)
    requires Core(m)
    requires forall id | id in ids :: !InState(m.sched, id, Running)
    ensures Core(m.(sched := CancelRanks(m.sched, ids, now)))
    decreases |ids|
  {
    if ids != [] {
      assert ids[0] in ids;
      CancelIdleCore(m, ids[0], now);
      CancelStartsNone(m.sched, ids[0], now, ids[1..]);
      CancelRanksCore(m.(sched := Cancel(m.sched, ids[0], now)), ids[1..], now);
    }
  }

  lemma SettleCore(m: Master, r: Result, now: int)
    requires Core(m) && InState(m.sched, r.jobId, Running)
    ensures Core(Settle(m, r, now))
  {
    var job := m.sched.jobs[r.jobId];
    var rec := job.(state := if r.success then Completed else Failed, output := r.output, error := r.error,
          endTime := now);
    StopCore(m, r.jobId, rec);
    assert job.spec.id == r.jobId;
    hide CoreOf, Judged, Billed, Retries, GivesUp;
  }

  lemma GroupReportCore(m: Master, gid: string, jobId: string, success: bool, now: int)
    requires Core(m)
    ensures Core(GroupReport(m, gid, jobId, success, now))
  {
    if gid in m.sched.groups {
      CancelSiblingsCore(m, m.sched.groups[gid].jobIds, jobId, now);
    }
  }

  lemma CompleteGroupCore(m: Master, r: Result, now: int)
    requires Core(m)
    ensures Core(CompleteGroup(m, r, now))
  {
    if r.jobId in m.sched.jobs {
      GroupReportCore(m, m.sched.jobs[r.jobId].spec.groupId, r.jobId, r.success, now);
    }
  }

  lemma ReportCore(m: Master, r: Result, now: int)
    requires Core(m)
    ensures Core(ReportGuarded(m, r, now))
  {
    if InState(m.sched, r.jobId, Running) {
      SettleCore(m, r, now);
      CompleteGroupCore(Settle(m, r, now), r, now);
    } else {
      CompleteGroupCore(m.(breaker := Judged(m.breaker, r, now)), r, now);
    }
  }

  // ---------- jobs enter the heap ----------

  lemma HeapAdmits(jobs: Jobs, queue: seq<JobSpec>, rec: JobRec)
    requires (forall id | id in jobs :: jobs[id].spec.id == id) && HeapExact(jobs, queue)
    requires rec.spec.id !in jobs && rec.state == Queued
    ensures HeapExact(jobs[rec.spec.id := rec], Pushed(queue, rec.spec))
  {
    var spec := rec.spec;
    PushCorrect(queue, spec);
    assert spec !in multiset(queue);
    var jobs' := jobs[spec.id := rec];
    forall id | id in jobs'
      ensures multiset(Pushed(queue, spec))[jobs'[id].spec] == if jobs'[id].state == Queued then 1 else 0
    {
      assert id != spec.id ==> jobs'[id].spec != spec;
    }
  }

  lemma LoadAdmits(jobs: Jobs, l: Ledger, rec: JobRec)
    requires LedgerExact(jobs, l) && rec.spec.id !in jobs && rec.state == Queued
    ensures LedgerExact(jobs[rec.spec.id := rec], l)
  {
    forall node ensures Held(l, node) == Load(jobs[rec.spec.id := rec], node) {
      LoadInserted(jobs, rec.spec.id, rec, node);
      assert Share(rec, node) == NOTHING;
      PlusNothing(Load(jobs, node));
    }
  }

  lemma PlusNothing(a: Res)
    ensures a.Plus(NOTHING) == a
  {
  }

  lemma CoreAdmits(jobs: Jobs, queue: seq<JobSpec>, l: Ledger, members: seq<Member>, rec: JobRec)
    requires CoreOf(jobs, queue, l, members) && rec.spec.id !in jobs && rec.spec.need.NonNegative()
    requires rec.state == Queued && Blank(rec)
    ensures CoreOf(jobs[rec.spec.id := rec], Pushed(queue, rec.spec), l, members)
  {
    HeapAdmits(jobs, queue, rec);
    LoadAdmits(jobs, l, rec);
  }

  lemma AdmitCore(m: Master, rec: JobRec)
    requires Core(m) && rec.spec.id !in m.sched.jobs && rec.spec.need.NonNegative()
    requires rec.state == Queued && Blank(rec)
    ensures Core(m.(sched := Enqueue(m.sched, rec)))
  {
    var s := m.sched;
    if Full(s) {
      assert m.(sched := Enqueue(m.sched, rec)) == m;
    } else {
      CoreAdmits(s.jobs, s.queue, m.ledger, m.members, rec);
    }
  }

  /** A running job goes back: heap and ledger move together. */
  lemma Requeue1Core(m: Master, id: string)
    requires Core(m)
    ensures Core(Requeue1(m, id))
  {
    if InState(m.sched, id, Running) {
      var s := m.sched;
      var job := s.jobs[id];
      var rec := job.(state := Queued, worker := "", startTime := 0);
      assert WellPlaced(job, m.members);
      PushCorrect(s.queue, job.spec);
      ReleaseFollows(s.jobs, m.ledger, id, rec);
      CoreFollows(s.jobs, s.queue, m.ledger, m.members, id, rec, Pushed(s.queue, job.spec),
                  Released(m.ledger, job.worker, job.spec.need));
    }
  }

  lemma {:induction false} RequeueAllCore(m: Master, ids: seq<string>)
    requires Core(m)
    ensures Core(RequeueAll(m, ids))
    decreases |ids|
  {
    if ids != [] {
      Requeue1Core(m, ids[0]);
      RequeueAllCore(Requeue1(m, ids[0]), ids[1..]);
    }
  }

  lemma RetryCore(m: Master, i: nat)
    requires Core(m) && i < |m.timers| && InState(m.sched, m.timers[i].jobId, Failed)
    ensures Core(RetryFires(m, i))
  {
    var s := m.sched;
    var id := m.timers[i].jobId;
    var rec := Reset(s.jobs[id], true);
    PushCorrect(s.queue, rec.spec);
    StaysUnplaced(m.ledger, s.jobs[id], rec);
    CoreFollows(s.jobs, s.queue, m.ledger, m.members, id, rec, Pushed(s.queue, rec.spec), m.ledger);
  }

  // ---------- jobs start ----------

  /** What is left when a queued job has been taken out of the heap. */
  ghost predicate TakenOut(m: Master, m': Master, id: string)
    requires id in m.sched.jobs
  {
    && m'.sched.jobs == m.sched.jobs && m'.ledger == m.ledger && m'.members == m.members
    && Ordered(m'.sched.queue)
    && multiset(m'.sched.queue) == multiset(m.sched.queue) - multiset{m.sched.jobs[id].spec}
  }

  lemma ChargeFollows(l: Ledger, old_: JobRec, rec: JobRec)
    requires old_.state != Running && rec.state == Running && rec.spec == old_.spec
    ensures LedgerFollows(l, Allocated(l, rec.worker, rec.spec.need), old_, rec)
  {
    var l' := Allocated(l, rec.worker, rec.spec.need);
    forall node ensures Held(l', node) == Held(l, node).Minus(Share(old_, node)).Plus(Share(rec, node)) {
      AllocateAdds(l, rec.worker, rec.spec.need, node);
      assert Share(old_, node) == NOTHING;
      MinusNothing(Held(l, node));
      if node != rec.worker {
        assert Share(rec, node) == NOTHING;
      }
    }
  }

  /** Taking a queued job out of the heap and dispatching it to a member that
      passed the capacity check keeps the invariant. */
  lemma StartCore(m: Master, m': Master, id: string, env: map<string, string>, member: Member, now: int)
    requires Core(m) && InState(m.sched, id, Queued) && TakenOut(m, m', id)
    requires member in m.members && CanDispatch(m.ledger, member, m.sched.jobs[id].spec.need)
    ensures Core(Dispatch(m', m.sched.jobs[id].spec, env, member.name, now))
  {
    var s := m.sched;
    var spec := s.jobs[id].spec;
    var rec := s.jobs[id].(state := Running, worker := member.name, startTime := now);
    var l' := Allocated(m.ledger, member.name, spec.need);
    assert WellPlaced(s.jobs[id], m.members);
    ChargeFollows(m.ledger, s.jobs[id], rec);
    LoadNonNegative(s.jobs, member.name);
    assert Held(m.ledger, member.name) == Load(s.jobs, member.name);
    assert Held(m.ledger, member.name).Within(member.total);
    DispatchFits(m.ledger, member, spec.need);
    forall x | x in m.members && x.name == member.name ensures x == member {
    }
    CoreFollows(s.jobs, s.queue, m.ledger, m.members, id, rec, m'.sched.queue, l');
  }

  // ---------- enforcers and membership ----------

  /** A snapshot still describes the running jobs it was taken from. */
  ghost predicate Current(m: Master, recs: seq<JobRec>) {
    && DistinctJobs(recs)
    && (forall r | r in recs :: InState(m.sched, r.spec.id, Running) && m.sched.jobs[r.spec.id] == r)
  }

  lemma CurrentTail(m: Master, m': Master, recs: seq<JobRec>)
    requires recs != [] && Current(m, recs)
    requires forall id | id in m.sched.jobs && id != recs[0].spec.id ::
        id in m'.sched.jobs && m'.sched.jobs[id] == m.sched.jobs[id]
    ensures Current(m', recs[1..])
  {
    forall r | r in recs[1..] ensures InState(m'.sched, r.spec.id, Running) && m'.sched.jobs[r.spec.id] == r {
      assert r in recs;
    }
  }

  lemma {:induction false} WalltimeCore(m: Master, recs: seq<JobRec>, now: int)
    requires Core(m) && Current(m, recs)
    ensures Core(WalltimeSweep(m, recs, now))
    decreases |recs|
  {
    if recs != [] {
      var id := recs[0].spec.id;
      assert recs[0] in recs;
      StopCore(m, id, recs[0].(state := Cancelled, endTime := now));
      CurrentTail(m, Kill1(m, recs[0], now), recs);
      WalltimeCore(Kill1(m, recs[0], now), recs[1..], now);
    }
  }

  function Lost(rec: JobRec, now: int): JobRec {
    rec.(state := Failed, output := "", error := "worker node lost", endTime := now)
  }

  lemma Lose1Effect(m: Master, node: string, rec: JobRec, now: int)
    requires InState(m.sched, rec.spec.id, Running) && m.sched.jobs[rec.spec.id] == rec
    ensures Lose1(m, node, rec, now).sched.jobs == m.sched.jobs[rec.spec.id := Lost(rec, now)]
    ensures Lose1(m, node, rec, now).sched.queue == m.sched.queue
    ensures Lose1(m, node, rec, now).ledger == Released(m.ledger, node, rec.spec.need)
    ensures Lose1(m, node, rec, now).members == m.members
  {
  }

  lemma Lose1Core(m: Master, node: string, rec: JobRec, now: int)
    requires Core(m) && InState(m.sched, rec.spec.id, Running) && m.sched.jobs[rec.spec.id] == rec
    requires rec.worker == node
    ensures Core(Lose1(m, node, rec, now))
  {
    Lose1Effect(m, node, rec, now);
    assert WellPlaced(rec, m.members);
    StopCore(m, rec.spec.id, Lost(rec, now));
  }

  lemma {:induction false} LoseAllCore(m: Master, node: string, recs: seq<JobRec>, now: int)
    requires Core(m) && Current(m, recs) && forall r | r in recs :: r.worker == node
    ensures Core(LoseAll(m, node, recs, now))
    decreases |recs|
  {
    if recs != [] {
      var next := Lose1(m, node, recs[0], now);
      assert recs[0] in recs;
      Lose1Core(m, node, recs[0], now);
      Lose1Effect(m, node, recs[0], now);
      CurrentTail(m, next, recs);
      LoseAllCore(next, node, recs[1..], now);
    }
  }

  /** Exactly the listed jobs fail. */
  lemma {:induction false} LoseAllEffect(m: Master, node: string, recs: seq<JobRec>, now: int)
    requires Keyed(m.sched.jobs) && Current(m, recs)
    ensures LoseAll(m, node, recs, now).members == m.members
    ensures LoseAll(m, node, recs, now).sched.jobs.Keys == m.sched.jobs.Keys
    ensures forall id | id in m.sched.jobs :: LoseAll(m, node, recs, now).sched.jobs[id]
                == (if m.sched.jobs[id] in recs then Lost(m.sched.jobs[id], now) else m.sched.jobs[id])
    decreases |recs|
  {
    if recs != [] {
      var next := Lose1(m, node, recs[0], now);
      assert recs[0] in recs;
      Lose1Effect(m, node, recs[0], now);
      CurrentTail(m, next, recs);
      LoseAllEffect(next, node, recs[1..], now);
      forall id | id in m.sched.jobs
        ensures LoseAll(m, node, recs, now).sched.jobs[id]
             == if m.sched.jobs[id] in recs then Lost(m.sched.jobs[id], now) else m.sched.jobs[id]
      {
        if id == recs[0].spec.id {
          assert next.sched.jobs[id] !in recs[1..];
        } else {
          assert m.sched.jobs[id] in recs <==> m.sched.jobs[id] in recs[1..];
        }
      }
    }
  }

  /** OnLeave does not look at the roster, so the member may be dropped after. */
  lemma {:induction false} LoseAllIgnoresRoster(m: Master, members: seq<Member>, node: string, recs: seq<JobRec>,
        now: int)
    ensures LoseAll(m.(members := members), node, recs, now) == LoseAll(m, node, recs, now).(members := members)
    decreases |recs|
  {
    if recs != [] {
      var next := Lose1(m, node, recs[0], now);
      assert Lose1(m.(members := members), node, recs[0], now) == next.(members := members);
      LoseAllIgnoresRoster(next, members, node, recs[1..], now);
    }
  }

  lemma {:induction false} OthersDistinct(members: seq<Member>, name: string)
    requires Roster(members)
    ensures Roster(Others(members, name))
  {
    if members != [] {
      var tail := Others(members[1..], name);
      OthersDistinct(members[1..], name);
      if members[0].name != name {
        assert Others(members, name) == [members[0]] + tail;
        forall j | 0 <= j < |tail| ensures tail[j].name != members[0].name {
          assert tail[j] in members[1..];
        }
      }
    }
  }

  /** A member without running jobs can be dropped from the roster. */
  lemma DropMemberCore(m: Master, name: string)
    requires Core(m)
    requires forall id | id in m.sched.jobs :: !(m.sched.jobs[id].state == Running && m.sched.jobs[id].worker == name)
    ensures Core(m.(members := Others(m.members, name)))
  {
    var kept := Others(m.members, name);
    OthersDistinct(m.members, name);
    forall id | id in m.sched.jobs ensures WellPlaced(m.sched.jobs[id], kept) {
      var rec := m.sched.jobs[id];
      assert WellPlaced(rec, m.members);
      if rec.state == Running {
        var x :| x in m.members && x.name == rec.worker;
        assert x in kept;
      }
    }
  }

  lemma LeaveCore(m: Master, name: string, recs: seq<JobRec>, now: int)
    requires Core(m) && Lists(m.sched, RunsOn(name), recs)
    ensures Core(NodeLeaves(m, name, recs, now))
  {
    LoseAllIgnoresRoster(m, Others(m.members, name), name, recs, now);
    LoseAllCore(m, name, recs, now);
    LoseAllEffect(m, name, recs, now);
    DropMemberCore(LoseAll(m, name, recs, now), name);
  }
}
