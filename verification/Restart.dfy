/** Restoring the master from its database: the loops at the start of StartMaster,
    from any stored image and in any listing order. */
module Restart {
  import opened Types
  import opened Scheduling
  import opened MasterSteps
  import opened Placement
  import opened CoreSteps

  // ---------- the loops ----------

  /** A job that was running when the master stopped. */
  function Interrupted(rec: JobRec, now: int): JobRec {
    rec.(state := Failed, error := "master restarted", endTime := now)
  }

  /** Queued jobs are enqueued, a full queue being ignored; running ones are saved
      as failed; finished ones are left alone. */
  function RestoreJob(m: Master, rec: JobRec, now: int): Master {
    match rec.state
    case Queued => m.(sched := Enqueue(m.sched, rec))
    case Running => m.(saved := m.saved.(jobs := m.saved.jobs[rec.spec.id := Interrupted(rec, now)]))
    case _ => m
  }

  function RestoreJobs(m: Master, recs: seq<JobRec>, now: int): Master
    decreases |recs|
  {
    if recs == [] then m else RestoreJobs(RestoreJob(m, recs[0], now), recs[1..], now)
  }

  predicate MidFlight(g: GroupRec) {
    g.state == GroupPending || g.state == GroupRunning
  }

  function Closed(g: GroupRec): GroupRec {
    if MidFlight(g) then g.(state := GroupFailed) else g
  }

  /** Groups in mid-flight are saved as failed; every group is registered. */
  function RestoreGroup(m: Master, g: GroupRec): Master {
    m.(sched := PutGroup(m.sched, Closed(g)),
       saved := if MidFlight(g) then m.saved.(groups := m.saved.groups[g.id := Closed(g)]) else m.saved)
  }

  function RestoreGroups(m: Master, gs: seq<GroupRec>): Master
    decreases |gs|
  {
    if gs == [] then m else RestoreGroups(RestoreGroup(m, gs[0]), gs[1..])
  }

  /** What survives a restart, and the queue bound of the new life. */
  datatype Remains = Remains(img: Image, usage: map<string, real>, deadLetters: map<string, JobRec>, maxQueueSize: int)

  function Boot(old_: Remains): Master {
    Fresh(old_.maxQueueSize).(saved := old_.img, usage := old_.usage, deadLetters := old_.deadLetters)
  }

  function Restored(old_: Remains, recs: seq<JobRec>, gs: seq<GroupRec>, now: int): Master {
    RestoreGroups(RestoreJobs(Boot(old_), recs, now), gs)
  }

  // ---------- images and listings ----------

  /** The database files every object under its own id. */
  ghost predicate Filed(img: Image) {
    && (forall id | id in img.jobs :: img.jobs[id].spec.id == id)
    && (forall gid | gid in img.groups :: img.groups[gid].id == gid)
  }

  ghost predicate ListsJobs(img: Image, recs: seq<JobRec>) {
    && DistinctJobs(recs)
    && (forall r | r in recs :: r.spec.id in img.jobs && img.jobs[r.spec.id] == r)
    && (forall id | id in img.jobs :: img.jobs[id] in recs)
  }

  ghost predicate ListsGroups(img: Image, gs: seq<GroupRec>) {
    && DistinctGroups(gs)
    && (forall g | g in gs :: g.id in img.groups && img.groups[g.id] == g)
    && (forall gid | gid in img.groups :: img.groups[gid] in gs)
  }

  // ---------- the two loops split into memory and database ----------

  /** One turn of the loop, for memory. */
  function Tried(s: Sched, rec: JobRec): Sched {
    if rec.state == Queued then Enqueue(s, rec) else s
  }

  function EnqueueAll(s: Sched, recs: seq<JobRec>): Sched
    decreases |recs|
  {
    if recs == [] then s else EnqueueAll(Tried(s, recs[0]), recs[1..])
  }

  function InterruptAll(jobs: Jobs, recs: seq<JobRec>, now: int): Jobs
    decreases |recs|
  {
    if recs == [] then jobs
    else
      var rec := recs[0];
      InterruptAll(if rec.state == Running then jobs[rec.spec.id := Interrupted(rec, now)] else jobs, recs[1..], now)
  }

  lemma {:induction false} JobsLoopSplits(m: Master, recs: seq<JobRec>, now: int)
    ensures RestoreJobs(m, recs, now)
         == m.(sched := EnqueueAll(m.sched, recs),
               saved := m.saved.(jobs := InterruptAll(m.saved.jobs, recs, now)))
    decreases |recs|
  {
    if recs != [] {
      JobsLoopSplits(RestoreJob(m, recs[0], now), recs[1..], now);
    }
  }

  function RegisterAll(s: Sched, gs: seq<GroupRec>): Sched
    decreases |gs|
  {
    if gs == [] then s else RegisterAll(PutGroup(s, Closed(gs[0])), gs[1..])
  }

  function CloseAll(groups: map<string, GroupRec>, gs: seq<GroupRec>): map<string, GroupRec>
    decreases |gs|
  {
    if gs == [] then groups
    else CloseAll(if MidFlight(gs[0]) then groups[gs[0].id := Closed(gs[0])] else groups, gs[1..])
  }

  lemma {:induction false} GroupsLoopSplits(m: Master, gs: seq<GroupRec>)
    ensures RestoreGroups(m, gs)
         == m.(sched := RegisterAll(m.sched, gs), saved := m.saved.(groups := CloseAll(m.saved.groups, gs)))
    decreases |gs|
  {
    if gs != [] {
      GroupsLoopSplits(RestoreGroup(m, gs[0]), gs[1..]);
    }
  }

  lemma RestoredSplits(old_: Remains, recs: seq<JobRec>, gs: seq<GroupRec>, now: int)
    ensures Restored(old_, recs, gs, now)
         == Boot(old_).(sched := RegisterAll(EnqueueAll(NewSched(old_.maxQueueSize), recs), gs),
                        saved := Image(InterruptAll(old_.img.jobs, recs, now), CloseAll(old_.img.groups, gs)))
  {
    JobsLoopSplits(Boot(old_), recs, now);
    GroupsLoopSplits(RestoreJobs(Boot(old_), recs, now), gs);
  }

  // ---------- the database afterwards ----------

  /** The database entry after the restart. */
  ghost predicate SavedAs(rec: JobRec, saved: JobRec, now: int) {
    saved == if rec.state == Running then rec.(state := Failed, error := "master restarted", endTime := now) else rec
  }

  /** A group that was pending or running has failed, any other is as it was. */
  predicate ClosedAs(g: GroupRec, g': GroupRec) {
    g' == if g.state == GroupPending || g.state == GroupRunning then g.(state := GroupFailed) else g
  }

  function Swept(rec: JobRec, id: string, recs: seq<JobRec>, now: int): JobRec {
    if rec in recs && rec.state == Running && rec.spec.id == id then Interrupted(rec, now) else rec
  }

  lemma {:induction false} InterruptAllEffect(jobs: Jobs, recs: seq<JobRec>, now: int)
    requires DistinctJobs(recs) && forall r | r in recs :: r.spec.id in jobs && jobs[r.spec.id] == r
    ensures InterruptAll(jobs, recs, now).Keys == jobs.Keys
    ensures forall id | id in jobs ::
        InterruptAll(jobs, recs, now)[id] == Swept(jobs[id], id, recs, now)
    decreases |recs|
  {
    if recs != [] {
      assert recs[0] in recs;
      var next := if recs[0].state == Running then jobs[recs[0].spec.id := Interrupted(recs[0], now)] else jobs;
      forall r | r in recs[1..] ensures r.spec.id in next && next[r.spec.id] == r {
        assert r in recs;
      }
      InterruptAllEffect(next, recs[1..], now);
      forall id | id in jobs
        ensures InterruptAll(jobs, recs, now)[id] == Swept(jobs[id], id, recs, now)
      {
        if id == recs[0].spec.id {
          assert next[id] !in recs[1..];
        } else {
          assert jobs[id].spec.id == id ==> (jobs[id] in recs <==> jobs[id] in recs[1..]);
        }
      }
    }
  }

  function SweptGroup(g: GroupRec, gid: string, gs: seq<GroupRec>): GroupRec {
    if g in gs && g.id == gid then Closed(g) else g
  }

  lemma {:induction false} CloseAllEffect(groups: map<string, GroupRec>, gs: seq<GroupRec>)
    requires DistinctGroups(gs) && forall g | g in gs :: g.id in groups && groups[g.id] == g
    ensures CloseAll(groups, gs).Keys == groups.Keys
    ensures forall gid | gid in groups ::
        CloseAll(groups, gs)[gid] == SweptGroup(groups[gid], gid, gs)
    decreases |gs|
  {
    if gs != [] {
      assert gs[0] in gs;
      var next := if MidFlight(gs[0]) then groups[gs[0].id := Closed(gs[0])] else groups;
      forall g | g in gs[1..] ensures g.id in next && next[g.id] == g {
        assert g in gs;
      }
      CloseAllEffect(next, gs[1..]);
      forall gid | gid in groups
        ensures CloseAll(groups, gs)[gid] == SweptGroup(groups[gid], gid, gs)
      {
        if gid == gs[0].id {
          assert next[gid] !in gs[1..];
        } else {
          assert groups[gid].id == gid ==> (groups[gid] in gs <==> groups[gid] in gs[1..]);
        }
      }
    }
  }

  /** Afterwards the database holds the same jobs, the running ones failed and all
      others exactly as they were. */
  lemma StoreAfterRestart(old_: Remains, recs: seq<JobRec>, gs: seq<GroupRec>, now: int)
    requires Filed(old_.img) && ListsJobs(old_.img, recs) && ListsGroups(old_.img, gs)
    ensures var saved := Restored(old_, recs, gs, now).saved;
            && saved.jobs.Keys == old_.img.jobs.Keys
            && (forall id | id in old_.img.jobs :: SavedAs(old_.img.jobs[id], saved.jobs[id], now))
            && saved.groups.Keys == old_.img.groups.Keys
            && (forall gid | gid in old_.img.groups :: ClosedAs(old_.img.groups[gid], saved.groups[gid]))
  {
    RestoredSplits(old_, recs, gs, now);
    InterruptAllEffect(old_.img.jobs, recs, now);
    CloseAllEffect(old_.img.groups, gs);
  }

  // ---------- memory afterwards ----------

  lemma {:induction false} RegisterAllEffect(s: Sched, gs: seq<GroupRec>)
    requires DistinctGroups(gs)
    ensures RegisterAll(s, gs).jobs == s.jobs && RegisterAll(s, gs).queue == s.queue
    ensures RegisterAll(s, gs).maxQueueSize == s.maxQueueSize
    ensures forall g | g in gs :: g.id in RegisterAll(s, gs).groups && RegisterAll(s, gs).groups[g.id] == Closed(g)
    ensures forall gid | (forall g | g in gs :: g.id != gid) ::
        (gid in RegisterAll(s, gs).groups <==> gid in s.groups)
        && (gid in s.groups ==> RegisterAll(s, gs).groups[gid] == s.groups[gid])
    decreases |gs|
  {
    if gs != [] {
      var next := PutGroup(s, Closed(gs[0]));
      RegisterAllEffect(next, gs[1..]);
      forall g | g in gs ensures g.id in RegisterAll(s, gs).groups && RegisterAll(s, gs).groups[g.id] == Closed(g) {
        if g !in gs[1..] {
          assert g == gs[0];
          assert forall h | h in gs[1..] :: h.id != g.id;
        }
      }
      forall gid | (forall g | g in gs :: g.id != gid)
        ensures (gid in RegisterAll(s, gs).groups <==> gid in s.groups)
        ensures gid in s.groups ==> RegisterAll(s, gs).groups[gid] == s.groups[gid]
      {
        assert gs[0] in gs;
        assert forall g | g in gs[1..] :: g in gs;
      }
    }
  }

  ghost predicate QueuedOnly(s: Sched) {
    forall id | id in s.jobs :: s.jobs[id].spec.id == id && s.jobs[id].state == Queued
  }

  /** What was tracked stays; what is new comes from the list. */
  ghost predicate From(s: Sched, s': Sched, recs: seq<JobRec>) {
    && s'.groups == s.groups && s'.maxQueueSize == s.maxQueueSize
    && (forall id | id in s.jobs :: id in s'.jobs && s'.jobs[id] == s.jobs[id])
    && (forall id | id in s'.jobs && id !in s.jobs :: s'.jobs[id] in recs)
  }

  ghost predicate Untracked(s: Sched, recs: seq<JobRec>) {
    forall r | r in recs :: r.spec.id !in s.jobs
  }

  lemma UntrackedTail(s: Sched, recs: seq<JobRec>)
    requires recs != [] && DistinctJobs(recs) && Untracked(s, recs)
    ensures Untracked(s, recs[1..]) && DistinctJobs(recs[1..])
    ensures Untracked(Enqueue(s, recs[0]), recs[1..])
  {
    forall r | r in recs[1..] ensures r.spec.id !in Enqueue(s, recs[0]).jobs && r.spec.id !in s.jobs {
      assert r in recs;
      var i :| 0 <= i < |recs[1..]| && recs[1..][i] == r;
      assert recs[i + 1] == r;
    }
  }

  lemma TriedHeap(s: Sched, rec: JobRec)
    requires QueuedOnly(s) && HeapExact(s.jobs, s.queue) && rec.spec.id !in s.jobs
    ensures QueuedOnly(Tried(s, rec)) && HeapExact(Tried(s, rec).jobs, Tried(s, rec).queue)
    ensures From(s, Tried(s, rec), [rec])
  {
    if rec.state == Queued && !Full(s) {
      HeapAdmits(s.jobs, s.queue, rec);
    }
  }

  lemma FromChain(s: Sched, next: Sched, s': Sched, recs: seq<JobRec>)
    requires recs != [] && From(s, next, [recs[0]]) && From(next, s', recs[1..])
    ensures From(s, s', recs)
  {
  }

  /** The heap is valid throughout. */
  lemma {:induction false} EnqueueAllHeap(s: Sched, recs: seq<JobRec>)
    requires QueuedOnly(s) && HeapExact(s.jobs, s.queue) && DistinctJobs(recs) && Untracked(s, recs)
    ensures QueuedOnly(EnqueueAll(s, recs))
    ensures HeapExact(EnqueueAll(s, recs).jobs, EnqueueAll(s, recs).queue)
    ensures From(s, EnqueueAll(s, recs), recs)
    decreases |recs|
  {
    if recs != [] {
      assert recs[0] in recs;
      var next := Tried(s, recs[0]);
      TriedHeap(s, recs[0]);
      UntrackedTail(s, recs);
      assert Untracked(next, recs[1..]);
      hide HeapExact, QueuedOnly, Enqueue, From;
      EnqueueAllHeap(next, recs[1..]);
      FromChain(s, next, EnqueueAll(next, recs[1..]), recs);
    }
  }

  function CountQueued(recs: seq<JobRec>): nat {
    if recs == [] then 0 else (if recs[0].state == Queued then 1 else 0) + CountQueued(recs[1..])
  }

  /** All of them fit. */
  predicate AllFit(s: Sched, recs: seq<JobRec>) {
    s.maxQueueSize <= 0 || |s.queue| + CountQueued(recs) <= s.maxQueueSize
  }

  ghost predicate AllIn(s: Sched, recs: seq<JobRec>) {
    forall r | r in recs && r.state == Queued :: r.spec.id in s.jobs && s.jobs[r.spec.id] == r
  }

  /** Every queued job is recovered iff they all fit. */
  lemma {:induction false} AllInIffAllFit(s: Sched, recs: seq<JobRec>)
    requires QueuedOnly(s) && HeapExact(s.jobs, s.queue) && DistinctJobs(recs) && Untracked(s, recs)
    ensures CountQueued(recs) == 0 || AllFit(s, recs) <==> AllIn(EnqueueAll(s, recs), recs)
    decreases |recs|
  {
    if recs != [] {
      assert recs[0] in recs;
      var next := Tried(s, recs[0]);
      TriedHeap(s, recs[0]);
      UntrackedTail(s, recs);
      EnqueueAllHeap(next, recs[1..]);
      hide HeapExact, QueuedOnly, From, AllIn;
      AllInIffAllFit(next, recs[1..]);
      AllInCons(s, next, recs);
    }
  }

  lemma AllInCons(s: Sched, next: Sched, recs: seq<JobRec>)
    requires recs != [] && DistinctJobs(recs) && Untracked(s, recs)
    requires next == Tried(s, recs[0])
    requires From(next, EnqueueAll(next, recs[1..]), recs[1..])
    ensures AllIn(EnqueueAll(s, recs), recs)
        <==> AllIn(EnqueueAll(next, recs[1..]), recs[1..]) && (recs[0].state == Queued ==> !Full(s))
  {
    var s' := EnqueueAll(next, recs[1..]);
    assert recs[0] in recs;
    if recs[0].state == Queued && Full(s) && recs[0].spec.id in s'.jobs {
      var i :| 0 <= i < |recs[1..]| && recs[1..][i] == s'.jobs[recs[0].spec.id];
      assert recs[i + 1].spec.id != recs[0].spec.id;
      assert s'.jobs[recs[0].spec.id] != recs[0];
    }
  }

  /** From any image the restored heap is valid, every tracked job is a persisted
      QUEUED one with its record unchanged, and all of those are recovered exactly
      when they fit the queue bound. */
  lemma MemoryAfterRestart(old_: Remains, recs: seq<JobRec>, gs: seq<GroupRec>, now: int)
    requires Filed(old_.img) && ListsJobs(old_.img, recs) && ListsGroups(old_.img, gs)
    ensures var s := Restored(old_, recs, gs, now).sched;
            && HeapExact(s.jobs, s.queue)
            && (forall id | id in s.jobs ::
                  id in old_.img.jobs && s.jobs[id] == old_.img.jobs[id] && s.jobs[id].state == Queued)
            && (AllIn(s, recs) <==> AllFit(NewSched(old_.maxQueueSize), recs))
  {
    var s0 := NewSched(old_.maxQueueSize);
    RestoredSplits(old_, recs, gs, now);
    EnqueueAllHeap(s0, recs);
    AllInIffAllFit(s0, recs);
    RegisterAllEffect(EnqueueAll(s0, recs), gs);
  }

  lemma RegisterAllOnto(s: Sched, img: Image, gs: seq<GroupRec>)
    requires s.groups == map[] && ListsGroups(img, gs) && Filed(img)
    ensures RegisterAll(s, gs).groups.Keys == img.groups.Keys
    ensures forall gid | gid in img.groups :: RegisterAll(s, gs).groups[gid] == Closed(img.groups[gid])
  {
    RegisterAllEffect(s, gs);
    forall gid ensures gid in RegisterAll(s, gs).groups <==> gid in img.groups {
      if gid !in img.groups {
        assert forall g | g in gs :: g.id != gid;
      } else {
        assert img.groups[gid] in gs;
      }
    }
  }

  /** Exactly the stored groups are registered, none in mid-flight. */
  lemma GroupsAfterRestart(old_: Remains, recs: seq<JobRec>, gs: seq<GroupRec>, now: int)
    requires Filed(old_.img) && ListsJobs(old_.img, recs) && ListsGroups(old_.img, gs)
    ensures var s := Restored(old_, recs, gs, now).sched;
            && s.groups.Keys == old_.img.groups.Keys
            && (forall gid | gid in old_.img.groups :: ClosedAs(old_.img.groups[gid], s.groups[gid]))
  {
    var s0 := NewSched(old_.maxQueueSize);
    RestoredSplits(old_, recs, gs, now);
    EnqueueAllHeap(s0, recs);
    hide HeapExact, QueuedOnly, ListsJobs, ListsGroups, Filed, Restored;
    RegisterAllOnto(EnqueueAll(s0, recs), old_.img, gs);
  }

  /** Nothing is left running: not in memory, not in the database. */
  lemma NothingInFlight(old_: Remains, recs: seq<JobRec>, gs: seq<GroupRec>, now: int)
    requires Filed(old_.img) && ListsJobs(old_.img, recs) && ListsGroups(old_.img, gs)
    ensures var m := Restored(old_, recs, gs, now);
            && (forall id | id in m.sched.jobs :: m.sched.jobs[id].state != Running)
            && (forall id | id in m.saved.jobs :: m.saved.jobs[id].state != Running)
            && (forall gid | gid in m.sched.groups :: m.sched.groups[gid].state in {GroupCompleted, GroupFailed})
            && (forall gid | gid in m.saved.groups :: m.saved.groups[gid].state in {GroupCompleted, GroupFailed})
  {
    hide Restored, ListsJobs, ListsGroups, HeapExact, AllIn, AllFit;
    StoreAfterRestart(old_, recs, gs, now);
    MemoryAfterRestart(old_, recs, gs, now);
    GroupsAfterRestart(old_, recs, gs, now);
  }

  // ---------- restarting twice ----------

  /** The listing the next restart reads. */
  function Reread(recs: seq<JobRec>, now: int): (r: seq<JobRec>)
    ensures |r| == |recs|
  {
    seq(|recs|, i requires 0 <= i < |recs| => if recs[i].state == Running then Interrupted(recs[i], now) else recs[i])
  }

  function RereadGroups(gs: seq<GroupRec>): (r: seq<GroupRec>)
    ensures |r| == |gs|
  {
    seq(|gs|, i requires 0 <= i < |gs| => Closed(gs[i]))
  }

  lemma RereadCons(recs: seq<JobRec>, now: int)
    requires recs != []
    ensures Reread(recs, now)[1..] == Reread(recs[1..], now)
  {
  }

  lemma {:induction false} EnqueueReread(s: Sched, recs: seq<JobRec>, now: int)
    ensures EnqueueAll(s, Reread(recs, now)) == EnqueueAll(s, recs)
    decreases |recs|
  {
    if recs != [] {
      RereadCons(recs, now);
      EnqueueReread(Tried(s, recs[0]), recs[1..], now);
    }
  }

  lemma {:induction false} InterruptReread(jobs: Jobs, recs: seq<JobRec>, now: int, later: int)
    ensures InterruptAll(jobs, Reread(recs, now), later) == jobs
    decreases |recs|
  {
    if recs != [] {
      RereadCons(recs, now);
      InterruptReread(jobs, recs[1..], now, later);
    }
  }

  lemma RereadGroupsCons(gs: seq<GroupRec>)
    requires gs != []
    ensures RereadGroups(gs)[1..] == RereadGroups(gs[1..])
  {
  }

  lemma {:induction false} RegisterReread(s: Sched, gs: seq<GroupRec>)
    ensures RegisterAll(s, RereadGroups(gs)) == RegisterAll(s, gs)
    decreases |gs|
  {
    if gs != [] {
      RereadGroupsCons(gs);
      RegisterReread(PutGroup(s, Closed(gs[0])), gs[1..]);
    }
  }

  lemma {:induction false} CloseReread(groups: map<string, GroupRec>, gs: seq<GroupRec>)
    ensures CloseAll(groups, RereadGroups(gs)) == groups
    decreases |gs|
  {
    if gs != [] {
      RereadGroupsCons(gs);
      CloseReread(groups, gs[1..]);
    }
  }

  /** Restarting again, whenever, from what the first restart left in the database
      restores the very same master; the only timestamps ever written are those
      of the first. */
  lemma RestartTwice(old_: Remains, recs: seq<JobRec>, gs: seq<GroupRec>, now: int, later: int)
    ensures var m := Restored(old_, recs, gs, now);
            Restored(old_.(img := m.saved), Reread(recs, now), RereadGroups(gs), later) == m
  {
    var m := Restored(old_, recs, gs, now);
    RestoredSplits(old_, recs, gs, now);
    RestoredSplits(old_.(img := m.saved), Reread(recs, now), RereadGroups(gs), later);
    EnqueueReread(NewSched(old_.maxQueueSize), recs, now);
    InterruptReread(m.saved.jobs, recs, now, later);
    RegisterReread(EnqueueAll(NewSched(old_.maxQueueSize), recs), gs);
    CloseReread(m.saved.groups, gs);
  }

  lemma RereadDistinct(recs: seq<JobRec>, now: int)
    requires DistinctJobs(recs)
    ensures DistinctJobs(Reread(recs, now))
  {
  }

  lemma RereadIsSaved(img: Image, saved: Image, recs: seq<JobRec>, now: int, r: JobRec)
    requires ListsJobs(img, recs) && saved.jobs.Keys == img.jobs.Keys
    requires forall id | id in img.jobs :: SavedAs(img.jobs[id], saved.jobs[id], now)
    requires r in Reread(recs, now)
    ensures r.spec.id in saved.jobs && saved.jobs[r.spec.id] == r
  {
    var i :| 0 <= i < |recs| && Reread(recs, now)[i] == r;
    var rec := recs[i];
    assert rec in recs;
    assert SavedAs(img.jobs[rec.spec.id], saved.jobs[rec.spec.id], now);
  }

  lemma SavedIsReread(img: Image, saved: Image, recs: seq<JobRec>, now: int, id: string)
    requires ListsJobs(img, recs) && saved.jobs.Keys == img.jobs.Keys && id in img.jobs
    requires SavedAs(img.jobs[id], saved.jobs[id], now)
    ensures saved.jobs[id] in Reread(recs, now)
  {
    assert img.jobs[id] in recs;
    var i :| 0 <= i < |recs| && recs[i] == img.jobs[id];
    assert Reread(recs, now)[i] == saved.jobs[id];
  }

  lemma RereadListsJobs(img: Image, saved: Image, recs: seq<JobRec>, now: int)
    requires ListsJobs(img, recs) && saved.jobs.Keys == img.jobs.Keys
    requires forall id | id in img.jobs :: SavedAs(img.jobs[id], saved.jobs[id], now)
    ensures ListsJobs(saved, Reread(recs, now))
  {
    RereadDistinct(recs, now);
    forall r | r in Reread(recs, now) ensures r.spec.id in saved.jobs && saved.jobs[r.spec.id] == r {
      RereadIsSaved(img, saved, recs, now, r);
    }
    forall id | id in saved.jobs ensures saved.jobs[id] in Reread(recs, now) {
      SavedIsReread(img, saved, recs, now, id);
    }
  }

  lemma RereadGroupIsSaved(img: Image, saved: Image, gs: seq<GroupRec>, g: GroupRec)
    requires ListsGroups(img, gs) && saved.groups.Keys == img.groups.Keys
    requires forall gid | gid in img.groups :: saved.groups[gid] == Closed(img.groups[gid])
    requires g in RereadGroups(gs)
    ensures g.id in saved.groups && saved.groups[g.id] == g
  {
    var i :| 0 <= i < |gs| && RereadGroups(gs)[i] == g;
    assert gs[i] in gs;
  }

  lemma SavedGroupIsReread(img: Image, saved: Image, gs: seq<GroupRec>, gid: string)
    requires ListsGroups(img, gs) && gid in img.groups && gid in saved.groups
    requires saved.groups[gid] == Closed(img.groups[gid])
    ensures saved.groups[gid] in RereadGroups(gs)
  {
    assert img.groups[gid] in gs;
    var i :| 0 <= i < |gs| && gs[i] == img.groups[gid];
    assert RereadGroups(gs)[i] == saved.groups[gid];
  }

  lemma RereadGroupsDistinct(gs: seq<GroupRec>)
    requires DistinctGroups(gs)
    ensures DistinctGroups(RereadGroups(gs))
  {
  }

  lemma RereadListsGroups(img: Image, saved: Image, gs: seq<GroupRec>)
    requires ListsGroups(img, gs) && saved.groups.Keys == img.groups.Keys
    requires forall gid | gid in img.groups :: saved.groups[gid] == Closed(img.groups[gid])
    ensures ListsGroups(saved, RereadGroups(gs))
  {
    RereadGroupsDistinct(gs);
    forall g | g in RereadGroups(gs) ensures g.id in saved.groups && saved.groups[g.id] == g {
      RereadGroupIsSaved(img, saved, gs, g);
    }
    forall gid | gid in saved.groups ensures saved.groups[gid] in RereadGroups(gs) {
      SavedGroupIsReread(img, saved, gs, gid);
    }
  }

  /** The second restart indeed reads that listing. */
  lemma RereadLists(old_: Remains, recs: seq<JobRec>, gs: seq<GroupRec>, now: int)
    requires Filed(old_.img) && ListsJobs(old_.img, recs) && ListsGroups(old_.img, gs)
    ensures var saved := Restored(old_, recs, gs, now).saved;
            Filed(saved) && ListsJobs(saved, Reread(recs, now)) && ListsGroups(saved, RereadGroups(gs))
  {
    var saved := Restored(old_, recs, gs, now).saved;
    StoreAfterRestart(old_, recs, gs, now);
    RereadListsJobs(old_.img, saved, recs, now);
    RereadListsGroups(old_.img, saved, gs);
  }
}
