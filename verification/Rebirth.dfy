/** Every life of the master starts well: what a restart makes of the database,
    after a crash at any moment and after a clean shutdown. */
module Rebirth {
  import opened Types
  import opened Scheduling
  import opened Ledger
  import opened MasterSteps
  import opened Placement
  import opened Groups
  import opened Events
  import opened Runs
  import opened WriteBehind
  import opened Restart
  import opened Lives

  /** The master after a restart that reads the image in some order. */
  ghost predicate Restarts(old_: Remains, recs: seq<JobRec>, gs: seq<GroupRec>) {
    SaneImage(old_.img) && ListsJobs(old_.img, recs) && ListsGroups(old_.img, gs)
  }

  function Reborn(m: Master): Run {
    Run(m, {}, map[], map[])
  }

  // ---------- any sane image ----------

  lemma RestoredMembers(old_: Remains, recs: seq<JobRec>, gs: seq<GroupRec>, now: int)
    ensures var m := Restored(old_, recs, gs, now);
            && m.ledger == EMPTY && m.members == [] && m.timers == [] && m.pending == map[] && m.sent == []
  {
    RestoredSplits(old_, recs, gs, now);
  }

  lemma IdleCore(s: Sched)
    requires Keyed(s.jobs) && HeapExact(s.jobs, s.queue)
    requires forall id | id in s.jobs :: s.jobs[id].state == Queued && Blank(s.jobs[id])
    ensures CoreOf(s.jobs, s.queue, EMPTY, [])
  {
    forall node ensures Held(EMPTY, node) == Load(s.jobs, node) {
      NoJobsNoLoad(s.jobs, node);
    }
  }

  lemma RestoredCore(old_: Remains, recs: seq<JobRec>, gs: seq<GroupRec>, now: int)
    requires Restarts(old_, recs, gs)
    ensures Core(Restored(old_, recs, gs, now))
  {
    MemoryAfterRestart(old_, recs, gs, now);
    RestoredMembers(old_, recs, gs, now);
    var s := Restored(old_, recs, gs, now).sched;
    forall id | id in s.jobs ensures Blank(s.jobs[id]) && s.jobs[id].spec.need.NonNegative() {
      assert Decent(old_.img.jobs[id]);
    }
    IdleCore(s);
  }

  lemma ClosedSame(img: Image, s: Sched)
    requires s.groups.Keys == img.groups.Keys
    requires forall gid | gid in img.groups :: ClosedAs(img.groups[gid], s.groups[gid])
    ensures forall gid | gid in s.groups :: gid in img.groups && SameGroup(img.groups[gid], s.groups[gid])
  {
  }

  lemma RestoredShape(old_: Remains, recs: seq<JobRec>, gs: seq<GroupRec>, now: int)
    requires Restarts(old_, recs, gs)
    ensures Shape(Restored(old_, recs, gs, now).sched)
  {
    var s := Restored(old_, recs, gs, now).sched;
    MemoryAfterRestart(old_, recs, gs, now);
    GroupsAfterRestart(old_, recs, gs, now);
    ClosedSame(old_.img, s);
    ShapeRestricts(AsSched(old_.img), s);
  }

  lemma SavedSpecs(img: Image, saved: Jobs, now: int)
    requires saved.Keys == img.jobs.Keys && forall id | id in img.jobs :: SavedAs(img.jobs[id], saved[id], now)
    ensures forall id | id in saved :: saved[id].spec == img.jobs[id].spec
    ensures AllDecent(img.jobs) ==> AllDecent(saved)
  {
  }

  lemma RestoredMerged(old_: Remains, recs: seq<JobRec>, gs: seq<GroupRec>, now: int)
    requires Restarts(old_, recs, gs)
    ensures Shape(Merged(Restored(old_, recs, gs, now)))
  {
    var m := Restored(old_, recs, gs, now);
    assert Filed(old_.img);
    hide Restored, Shape, AllIn, AllFit, HeapExact, QueuedOnly;
    MemoryAfterRestart(old_, recs, gs, now);
    StoreAfterRestart(old_, recs, gs, now);
    GroupsAfterRestart(old_, recs, gs, now);
    hide ListsJobs, ListsGroups, ClosedAs, SavedAs;
    ClosedSame(old_.img, m.sched);
    SavedSpecs(old_.img, m.saved.jobs, now);
    ShapeRestricts(AsSched(old_.img), Merged(m));
  }

  lemma RestoredRetired(old_: Remains, recs: seq<JobRec>, gs: seq<GroupRec>, now: int)
    requires Restarts(old_, recs, gs) && NoStragglers(old_.img)
    ensures var m := Restored(old_, recs, gs, now); AllRetired(m.saved.jobs, m.sched)
  {
    var m := Restored(old_, recs, gs, now);
    StoreAfterRestart(old_, recs, gs, now);
    GroupsAfterRestart(old_, recs, gs, now);
    forall id | id in m.saved.jobs && id !in m.sched.jobs ensures Retired(m.saved.jobs[id], m.sched.groups) {
      assert SavedAs(old_.img.jobs[id], m.saved.jobs[id], now);
      assert !Straggles(old_.img.jobs[id], old_.img.groups);
    }
  }

  lemma RestoredArchive(old_: Remains, recs: seq<JobRec>, gs: seq<GroupRec>, now: int)
    requires Restarts(old_, recs, gs) && NoStragglers(old_.img)
    ensures Archive(Restored(old_, recs, gs, now))
  {
    var m := Restored(old_, recs, gs, now);
    RestoredMerged(old_, recs, gs, now);
    RestoredRetired(old_, recs, gs, now);
    MemoryAfterRestart(old_, recs, gs, now);
    StoreAfterRestart(old_, recs, gs, now);
    GroupsAfterRestart(old_, recs, gs, now);
    SavedSpecs(old_.img, m.saved.jobs, now);
    assert GroupsAgree(m.saved.groups, m.sched.groups);
  }

  /** Memory holds queued jobs of the image and its groups, closed. */
  ghost predicate ReadFrom(img: Image, s: Sched) {
    && (forall id | id in s.jobs :: id in img.jobs && s.jobs[id] == img.jobs[id] && s.jobs[id].state == Queued)
    && s.groups.Keys == img.groups.Keys
    && (forall gid | gid in img.groups :: s.groups[gid] == Closed(img.groups[gid]))
  }

  lemma RestoredReads(old_: Remains, recs: seq<JobRec>, gs: seq<GroupRec>, now: int)
    requires Restarts(old_, recs, gs)
    ensures ReadFrom(old_.img, Restored(old_, recs, gs, now).sched)
  {
    MemoryAfterRestart(old_, recs, gs, now);
    GroupsAfterRestart(old_, recs, gs, now);
  }

  /** A restored rank fits its group unless it is a straggler. */
  lemma RankIffNotStraggling(img: Image, s: Sched, id: string)
    requires ReadFrom(img, s) && id in s.jobs
    ensures RankOk(s.jobs[id], s.groups) <==> !Straggles(img.jobs[id], img.groups)
  {
  }

  /** Queued ranks fit their groups if the image has no straggler; and only then,
      if every queued job was restored. */
  lemma RestoredRanks(old_: Remains, recs: seq<JobRec>, gs: seq<GroupRec>, now: int)
    requires Restarts(old_, recs, gs)
    ensures var s := Restored(old_, recs, gs, now).sched;
            && (NoStragglers(old_.img) ==> RanksOk(s))
            && (AllIn(s, recs) && RanksOk(s) ==> NoStragglers(old_.img))
  {
    var s := Restored(old_, recs, gs, now).sched;
    RestoredReads(old_, recs, gs, now);
    forall id | id in s.jobs ensures RankOk(s.jobs[id], s.groups) <==> !Straggles(old_.img.jobs[id], old_.img.groups) {
      RankIffNotStraggling(old_.img, s, id);
    }
    if AllIn(s, recs) && RanksOk(s) {
      AllReadRanks(old_.img, recs, s);
    }
  }

  lemma AllReadRanks(img: Image, recs: seq<JobRec>, s: Sched)
    requires ReadFrom(img, s) && ListsJobs(img, recs) && AllIn(s, recs) && RanksOk(s)
    ensures NoStragglers(img)
  {
    forall id | id in img.jobs ensures !Straggles(img.jobs[id], img.groups) {
      assert img.jobs[id] in recs;
      if img.jobs[id].state == Queued {
        assert img.jobs[id].spec.id in s.jobs;
        RankIffNotStraggling(img, s, img.jobs[id].spec.id);
      }
    }
  }

  lemma StoredRead(img: Image, m: Master, now: int)
    requires ReadFrom(img, m.sched)
    requires m.saved.jobs.Keys == img.jobs.Keys && m.saved.groups.Keys == img.groups.Keys
    requires forall id | id in img.jobs :: SavedAs(img.jobs[id], m.saved.jobs[id], now)
    requires forall gid | gid in img.groups :: m.saved.groups[gid] == Closed(img.groups[gid])
    ensures Agrees(m)
  {
    forall id | id in m.sched.jobs ensures JobSaved(m, id) {
      assert SavedAs(img.jobs[id], m.saved.jobs[id], now);
    }
  }

  lemma RestoredAgrees(old_: Remains, recs: seq<JobRec>, gs: seq<GroupRec>, now: int)
    requires Restarts(old_, recs, gs)
    ensures Agrees(Restored(old_, recs, gs, now))
  {
    RestoredReads(old_, recs, gs, now);
    StoreAfterRestart(old_, recs, gs, now);
    StoredRead(old_.img, Restored(old_, recs, gs, now), now);
  }

  /** A new life starts in an initial state of runs, with everything stored. */
  lemma RebornInitial(old_: Remains, recs: seq<JobRec>, gs: seq<GroupRec>, now: int)
    requires Restarts(old_, recs, gs) && NoStragglers(old_.img)
    ensures Initial(Reborn(Restored(old_, recs, gs, now)))
  {
    RestoredCore(old_, recs, gs, now);
    RestoredShape(old_, recs, gs, now);
    RestoredRanks(old_, recs, gs, now);
    RestoredMembers(old_, recs, gs, now);
    MemoryAfterRestart(old_, recs, gs, now);
  }

  // ---------- after a crash ----------

  /** The database of a master that crashes at any moment of any run can be
      restored: the heap, the ledger and the groups are well-formed again. */
  lemma CrashIsRecoverable(cfg: Config, es: seq<Event>, rs: seq<Run>, i: nat,
                           old_: Remains, recs: seq<JobRec>, gs: seq<GroupRec>, now: int)
    requires IsRun(cfg, es, rs) && i < |rs| && Archive(rs[0].m)
    requires old_.img == rs[i].m.saved && ListsJobs(old_.img, recs) && ListsGroups(old_.img, gs)
    ensures Core(Restored(old_, recs, gs, now)) && Shape(Restored(old_, recs, gs, now).sched)
    ensures Agrees(Restored(old_, recs, gs, now))
    ensures NoStragglers(old_.img)
        ==> Initial(Reborn(Restored(old_, recs, gs, now))) && Archive(Restored(old_, recs, gs, now))
  {
    hide Steps, Initial, Core, Shape, Agrees, Archive, Restored;
    AlwaysArchived(cfg, es, rs, i);
    ArchiveIsSane(rs[i].m);
    RestoredCore(old_, recs, gs, now);
    RestoredShape(old_, recs, gs, now);
    RestoredAgrees(old_, recs, gs, now);
    if NoStragglers(old_.img) {
      RebornInitial(old_, recs, gs, now);
      RestoredArchive(old_, recs, gs, now);
    }
  }

  // ---------- after a clean shutdown ----------

  lemma {:induction false} FlushedArchive(m: Master)
    requires Archive(m) && Core(m)
    ensures Archive(Flushed(m))
    decreases |m.sched.writes|
  {
    if m.sched.writes != [] {
      WriteArchive(m);
      FlushedArchive(WriteOne(m));
    }
  }

  /** Once the channel is flushed no queued rank is stored with a COMPLETED group. */
  lemma FlushedHasNoStragglers(m: Master)
    requires Archive(m) && Core(m) && RanksOk(m.sched) && Agrees(m)
    ensures NoStragglers(Flushed(m).saved)
  {
    var d := Flushed(m);
    FlushSynchronises(m);
    FlushedArchive(m);
    forall id | id in d.saved.jobs ensures !Straggles(d.saved.jobs[id], d.saved.groups) {
      NotStraggling(m, d, id);
    }
  }

  lemma NotStraggling(m: Master, d: Master, id: string)
    requires RanksOk(m.sched) && AllRetired(d.saved.jobs, d.sched) && GroupsAgree(d.saved.groups, d.sched.groups)
    requires d.sched.jobs == m.sched.jobs && d.sched.groups == m.sched.groups
    requires id in d.saved.jobs && (id in m.sched.jobs ==> JobSaved(d, id))
    requires forall gid | gid in m.sched.groups :: GroupSaved(d, gid)
    ensures !Straggles(d.saved.jobs[id], d.saved.groups)
  {
    var rec := d.saved.jobs[id];
    var gid := rec.spec.groupId;
    if gid in d.saved.groups {
      assert SameGroup(d.saved.groups[gid], d.sched.groups[gid]);
      assert GroupSaved(d, gid);
      if id in m.sched.jobs {
        assert RankOk(m.sched.jobs[id], m.sched.groups);
      } else {
        assert Retired(rec, d.sched.groups);
      }
    }
  }

  /** After a clean shutdown the next life starts in an initial state again, with
      database and memory in agreement: the theorems about runs hold for it. */
  lemma CleanRestart(cfg: Config, es: seq<Event>, rs: seq<Run>,
                     old_: Remains, recs: seq<JobRec>, gs: seq<GroupRec>, now: int)
    requires IsRun(cfg, es, rs) && Archive(rs[0].m) && Agrees(rs[0].m)
    requires old_.img == Flushed(rs[|es|].m).saved && ListsJobs(old_.img, recs) && ListsGroups(old_.img, gs)
    ensures var m' := Restored(old_, recs, gs, now); Initial(Reborn(m')) && Archive(m') && Agrees(m')
  {
    var m := rs[|es|].m;
    ShutdownState(cfg, es, rs);
    FlushedArchive(m);
    ArchiveIsSane(Flushed(m));
    FlushedHasNoStragglers(m);
    RebornInitial(old_, recs, gs, now);
    RestoredArchive(old_, recs, gs, now);
    RestoredAgrees(old_, recs, gs, now);
  }

  lemma ShutdownState(cfg: Config, es: seq<Event>, rs: seq<Run>)
    requires IsRun(cfg, es, rs) && Archive(rs[0].m) && Agrees(rs[0].m)
    ensures var m := rs[|es|].m; Core(m) && RanksOk(m.sched) && Archive(m) && Agrees(m)
  {
    Reachable(cfg, es, rs, |es|);
    AlwaysArchived(cfg, es, rs, |es|);
    NoUpdateLost(cfg, es, rs, |es|);
  }

  /** Nothing queued is lost: every job that was QUEUED at the shutdown is in the
      new heap with its record unchanged, if the queued jobs fit the bound. */
  lemma QueuedSurvive(m: Master, old_: Remains, recs: seq<JobRec>, gs: seq<GroupRec>, now: int, id: string)
    requires Archive(m) && Core(m) && Agrees(m)
    requires old_.img == Flushed(m).saved && ListsJobs(old_.img, recs) && ListsGroups(old_.img, gs)
    requires AllFit(NewSched(old_.maxQueueSize), recs) && InState(m.sched, id, Queued)
    ensures var s := Restored(old_, recs, gs, now).sched;
            id in s.jobs && s.jobs[id] == m.sched.jobs[id] && s.jobs[id].spec in multiset(s.queue)
  {
    FlushSynchronises(m);
    FlushedArchive(m);
    ArchiveIsSane(Flushed(m));
    MemoryAfterRestart(old_, recs, gs, now);
    assert JobSaved(Flushed(m), id);
    assert old_.img.jobs[id] in recs;
  }

  /** And nothing else comes back: a job that had started or finished is not in the
      new heap. */
  lemma OnlyQueuedReturn(m: Master, old_: Remains, recs: seq<JobRec>, gs: seq<GroupRec>, now: int, id: string)
    requires Archive(m) && Core(m) && Agrees(m)
    requires old_.img == Flushed(m).saved && ListsJobs(old_.img, recs) && ListsGroups(old_.img, gs)
    requires id in m.sched.jobs && m.sched.jobs[id].state != Queued
    ensures id !in Restored(old_, recs, gs, now).sched.jobs
  {
    FlushSynchronises(m);
    FlushedArchive(m);
    ArchiveIsSane(Flushed(m));
    MemoryAfterRestart(old_, recs, gs, now);
    assert JobSaved(Flushed(m), id);
  }

  /** The very first life starts there too. */
  lemma FirstLife(maxQueueSize: int)
    ensures Initial(Newborn(maxQueueSize)) && Archive(Fresh(maxQueueSize)) && Agrees(Fresh(maxQueueSize))
  {
    NewbornInitial(maxQueueSize);
  }
}
