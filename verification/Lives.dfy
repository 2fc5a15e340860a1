/** From one life of the master to the next: at every moment the database is an
    image that can be restored, and after a clean shutdown the new life starts
    where every theorem about runs applies again. */
module Lives {
  import opened Types
  import opened Scheduling
  import opened MasterSteps
  import opened Placement
  import opened Continuity
  import opened ContinuitySteps
  import opened Groups
  import opened Submission
  import opened Events
  import opened Runs

  // ---------- images that can be restored ----------

  predicate Decent(rec: JobRec) {
    rec.spec.need.NonNegative() && (rec.state == Queued ==> Blank(rec))
  }

  function AsSched(img: Image): Sched {
    NewSched(0).(jobs := img.jobs, groups := img.groups)
  }

  ghost predicate SaneImage(img: Image) {
    Shape(AsSched(img)) && AllDecent(img.jobs)
  }

  /** A queued rank whose group is stored as COMPLETED. */
  predicate Straggles(rec: JobRec, groups: GroupMap) {
    && rec.state == Queued && rec.spec.groupId != "" && rec.spec.groupId in groups
    && groups[rec.spec.groupId].state == GroupCompleted
  }

  ghost predicate NoStragglers(img: Image) {
    forall id | id in img.jobs :: !Straggles(img.jobs[id], img.groups)
  }

  // ---------- the relation between database and memory ----------

  /** Everything the master ever knew: memory over database. */
  function Merged(m: Master): Sched {
    m.sched.(jobs := m.saved.jobs + m.sched.jobs)
  }

  /** A stored job that is not tracked: finished, or refused by a full queue at
      the last restart. */
  predicate Retired(rec: JobRec, groups: GroupMap) {
    && rec.state != Running
    && (rec.state == Queued && rec.spec.groupId != "" && rec.spec.groupId in groups
        ==> groups[rec.spec.groupId].state == GroupFailed)
  }

  predicate SameGroup(g: GroupRec, g': GroupRec) {
    g' == g.(state := g'.state)
  }

  ghost predicate SpecsAgree(stored: Jobs, tracked: Jobs) {
    forall id | id in stored && id in tracked :: stored[id].spec == tracked[id].spec
  }

  ghost predicate AllRetired(stored: Jobs, s: Sched) {
    forall id | id in stored && id !in s.jobs :: Retired(stored[id], s.groups)
  }

  ghost predicate GroupsAgree(stored: GroupMap, tracked: GroupMap) {
    forall gid | gid in stored :: gid in tracked && SameGroup(stored[gid], tracked[gid])
  }

  ghost predicate AllDecent(stored: Jobs) {
    forall id | id in stored :: Decent(stored[id])
  }

  /** The database agrees with memory on everything but states. */
  ghost predicate Backed(img: Image, s: Sched) {
    && AllDecent(img.jobs)
    && SpecsAgree(img.jobs, s.jobs)
    && AllRetired(img.jobs, s)
    && GroupsAgree(img.groups, s.groups)
  }

  ghost predicate Archive(m: Master) {
    Shape(Merged(m)) && Backed(m.saved, m.sched)
  }

  /** Fewer jobs and groups, with the same identities: the shape remains. */
  lemma ShapeRestricts(s: Sched, s': Sched)
    requires Shape(s)
    requires forall id | id in s'.jobs :: id in s.jobs && s'.jobs[id].spec == s.jobs[id].spec
    requires forall gid | gid in s'.groups :: gid in s.groups && SameGroup(s.groups[gid], s'.groups[gid])
    ensures Shape(s')
  {
    forall gid | gid in s'.groups ensures gid != "" && GangShaped(s'.groups[gid]) && RanksOf(s'.jobs, s'.groups[gid]) {
      assert SameGroup(s.groups[gid], s'.groups[gid]);
      assert RanksOf(s.jobs, s.groups[gid]);
    }
    forall id | id in s'.jobs ensures Enrolled(s'.jobs[id].spec, s'.groups) {
      assert Enrolled(s.jobs[id].spec, s.groups);
      var gid := s.jobs[id].spec.groupId;
      assert gid in s'.groups ==> SameGroup(s.groups[gid], s'.groups[gid]);
    }
    forall a, b | a in s'.jobs && b in s'.jobs ensures Alike(s'.jobs[a].spec, s'.jobs[b].spec) {
      assert Alike(s.jobs[a].spec, s.jobs[b].spec);
    }
  }

  lemma MergedSpec(m: Master, id: string)
    requires Archive(m) && id in m.saved.jobs
    ensures id in Merged(m).jobs && Merged(m).jobs[id].spec == m.saved.jobs[id].spec
  {
  }

  /** What the database holds can be restored. */
  lemma ArchiveIsSane(m: Master)
    requires Archive(m)
    ensures SaneImage(m.saved)
  {
    var s' := AsSched(m.saved);
    forall id | id in s'.jobs ensures id in Merged(m).jobs && s'.jobs[id].spec == Merged(m).jobs[id].spec {
      MergedSpec(m, id);
    }
    forall gid | gid in s'.groups ensures SameGroup(Merged(m).groups[gid], s'.groups[gid]) {
      assert SameGroup(m.saved.groups[gid], m.sched.groups[gid]);
    }
    ShapeRestricts(Merged(m), s');
  }

  // ---------- events ----------

  /** Jobs and groups keep their identities; none appear or vanish. */
  ghost predicate Quiet(s: Sched, s': Sched) {
    && s'.jobs.Keys == s.jobs.Keys && s'.groups.Keys == s.groups.Keys
    && Keeps(s, s')
  }

  lemma QuietBacked(img: Image, s: Sched, s': Sched)
    requires Backed(img, s) && Quiet(s, s')
    ensures Backed(img, s')
  {
    forall gid | gid in img.groups ensures SameGroup(img.groups[gid], s'.groups[gid]) {
      assert SameGroup(img.groups[gid], s.groups[gid]) && Moves(s.groups[gid], s'.groups[gid]);
    }
    forall id | id in img.jobs && id !in s'.jobs ensures Retired(img.jobs[id], s'.groups) {
      assert Retired(img.jobs[id], s.groups);
      var gid := img.jobs[id].spec.groupId;
      assert gid in s.groups ==> Moves(s.groups[gid], s'.groups[gid]);
    }
  }

  lemma QuietShape(m: Master, m': Master)
    requires Shape(Merged(m)) && m'.saved == m.saved && Quiet(m.sched, m'.sched)
    ensures Shape(Merged(m'))
  {
    forall gid | gid in m'.sched.groups ensures SameGroup(m.sched.groups[gid], m'.sched.groups[gid]) {
      assert Moves(m.sched.groups[gid], m'.sched.groups[gid]);
    }
    ShapeRestricts(Merged(m), Merged(m'));
  }

  lemma QuietArchive(m: Master, m': Master)
    requires Archive(m) && m'.saved == m.saved && Quiet(m.sched, m'.sched)
    ensures Archive(m')
  {
    QuietShape(m, m');
    QuietBacked(m.saved, m.sched, m'.sched);
  }

  // ---------- the writer ----------

  lemma AppliedBacked(img: Image, s: Sched, op: WriteOp)
    requires Backed(img, s) && AllDecent(s.jobs)
    ensures Backed(Applied(img, s, op), s)
  {
    var img' := Applied(img, s, op);
    forall id | id in img'.jobs && id !in s.jobs ensures Retired(img'.jobs[id], s.groups) {
      assert Retired(img.jobs[id], s.groups);
    }
    forall gid | gid in img'.groups ensures gid in s.groups && SameGroup(img'.groups[gid], s.groups[gid]) {
      assert gid in img.groups ==> SameGroup(img.groups[gid], s.groups[gid]);
    }
  }

  lemma AppliedMerged(m: Master, op: WriteOp)
    ensures Applied(m.saved, m.sched, op).jobs + m.sched.jobs == m.saved.jobs + m.sched.jobs
  {
  }

  lemma TrackedDecent(m: Master)
    requires Core(m)
    ensures AllDecent(m.sched.jobs)
  {
    forall id | id in m.sched.jobs ensures Decent(m.sched.jobs[id]) {
      assert WellPlaced(m.sched.jobs[id], m.members);
    }
  }

  lemma ShapeIgnoresWrites(s: Sched, s': Sched)
    requires Shape(s) && s'.jobs == s.jobs && s'.groups == s.groups
    ensures Shape(s')
  {
  }

  /** The writer saves one object as it is in memory. */
  lemma WriteArchive(m: Master)
    requires Archive(m) && Core(m) && m.sched.writes != []
    ensures Archive(WriteOne(m))
  {
    var op := m.sched.writes[0];
    TrackedDecent(m);
    AppliedBacked(m.saved, m.sched, op);
    AppliedMerged(m, op);
    ShapeIgnoresWrites(Merged(m), Merged(WriteOne(m)));
    QuietBacked(WriteOne(m).saved, m.sched, WriteOne(m).sched);
  }

  // ---------- submissions ----------

  /** New jobs and groups that the database has never heard of. */
  ghost predicate FreshFor(img: Image, s: Sched, s': Sched) {
    && (forall id | id in s.jobs :: id in s'.jobs && s'.jobs[id].spec == s.jobs[id].spec)
    && (forall id | id in s'.jobs && id !in s.jobs :: id !in img.jobs)
    && (forall gid | gid in s.groups :: gid in s'.groups && s'.groups[gid] == s.groups[gid])
    && (forall gid | gid in s'.groups && gid !in s.groups :: Unheard(img, gid))
  }

  ghost predicate Unheard(img: Image, gid: string) {
    forall id | id in img.jobs :: img.jobs[id].spec.groupId != gid
  }

  lemma FreshBacked(img: Image, s: Sched, s': Sched)
    requires Backed(img, s) && FreshFor(img, s, s')
    ensures Backed(img, s')
  {
    forall id | id in img.jobs && id !in s'.jobs ensures Retired(img.jobs[id], s'.groups) {
      assert Retired(img.jobs[id], s.groups);
      var gid := img.jobs[id].spec.groupId;
      assert gid in s'.groups && gid !in s.groups ==> Unheard(img, gid);
    }
  }

  lemma EnqueueMerges(m: Master, rec: JobRec)
    ensures Merged(m.(sched := Enqueue(m.sched, rec))) == Enqueue(Merged(m), rec)
  {
    if !Full(m.sched) {
      var m' := m.(sched := Enqueue(m.sched, rec));
      assert Merged(m').jobs == Merged(m).jobs[rec.spec.id := rec.(state := Queued)];
    }
  }

  lemma JobFreshFor(m: Master, spec: JobSpec)
    requires FreshId(m.sched, spec.id) && FreshId(Stored(m), spec.id)
    ensures FreshId(Merged(m), spec.id)
    ensures FreshFor(m.saved, m.sched, Enqueue(m.sched, NewJob(spec)))
  {
  }

  lemma SubmitJobArchive(m: Master, spec: JobSpec)
    requires Archive(m) && spec.groupId == ""
    requires FreshId(m.sched, spec.id) && FreshId(Stored(m), spec.id)
    ensures Archive(m.(sched := Enqueue(m.sched, NewJob(spec))))
  {
    JobFreshFor(m, spec);
    hide Shape, Backed, FreshFor, Enqueue, FreshId;
    EnqueueMerges(m, NewJob(spec));
    SubmitJobShape(Merged(m), spec);
    FreshBacked(m.saved, m.sched, Enqueue(m.sched, NewJob(spec)));
  }

  /** Admission looks at the queue only, so it commutes with merging. */
  lemma {:induction false} AdmissionMerges(m: Master, gid: string, req: GangRequest, rank: nat, now: int)
    ensures Merged(m.(sched := AdmitRanks(m.sched, gid, req, rank, now))) == AdmitRanks(Merged(m), gid, req, rank, now)
    decreases Ranks(req) - rank
  {
    if rank < Ranks(req) && !Full(m.sched) {
      var rec := NewJob(RankSpec(gid, req, rank, now));
      EnqueueMerges(m, rec);
      AdmissionMerges(m.(sched := Enqueue(m.sched, rec)), gid, req, rank + 1, now);
    }
  }

  lemma FreshMerged(m: Master, gid: string, req: GangRequest)
    requires FreshGroup(m.sched, gid, req) && FreshGroup(Stored(m), gid, req)
    ensures FreshGroup(Merged(m), gid, req)
  {
    forall r: nat ensures FreshId(Merged(m), RankId(gid, r)) {
      assert FreshId(m.sched, RankId(gid, r)) && FreshId(Stored(m), RankId(gid, r));
    }
  }

  lemma SubmitGangMergedShape(m: Master, gid: string, req: GangRequest, now: int)
    requires Shape(Merged(m)) && FreshGroup(m.sched, gid, req) && FreshGroup(Stored(m), gid, req)
    ensures Shape(Merged(SubmitGang(m, gid, req, now)))
  {
    var admitted := m.(sched := AdmitRanks(m.sched, gid, req, 0, now));
    FreshMerged(m, gid, req);
    AdmissionMerges(m, gid, req, 0, now);
    SubmitGangShape(Merged(m), gid, req, now);
    assert PutGroup(Merged(admitted), GangRec(gid, req, now))
        == Merged(admitted.(sched := PutGroup(admitted.sched, GangRec(gid, req, now))));
  }

  lemma AdmissionFreshFor(m: Master, gid: string, req: GangRequest, now: int)
    requires FreshGroup(m.sched, gid, req) && FreshGroup(Stored(m), gid, req)
    ensures FreshFor(m.saved, m.sched, SubmitGang(m, gid, req, now).sched)
  {
    var s' := AdmitRanks(m.sched, gid, req, 0, now);
    AdmissionExtends(m.sched, gid, req, now);
    forall id | id in s'.jobs && id !in m.sched.jobs ensures id !in m.saved.jobs {
      var r: nat :| r < Ranks(req) && RankIds(gid, Ranks(req))[r] == id;
      assert FreshId(Stored(m), RankId(gid, r));
    }
    assert Unheard(m.saved, gid);
  }

  /** Stored ranks cannot belong to the new group, nor have the new ranks' ids. */
  lemma SubmitGangArchive(m: Master, gid: string, req: GangRequest, now: int)
    requires Archive(m) && FreshGroup(m.sched, gid, req) && FreshGroup(Stored(m), gid, req)
    ensures Archive(SubmitGang(m, gid, req, now))
  {
    SubmitGangMergedShape(m, gid, req, now);
    AdmissionFreshFor(m, gid, req, now);
    FreshBacked(m.saved, m.sched, SubmitGang(m, gid, req, now).sched);
  }

  // ---------- every event ----------

  lemma RetryQuiet(m: Master, i: nat)
    requires TimersOk(m) && Sound(m.sched) && i < |m.timers|
    ensures Quiet(m.sched, RetryFires(m, i).sched)
  {
    assert TimerOk(m.sched, m.timers[i]);
    RetryEffect(m, i);
  }

  lemma EvolvesQuiet(s: Sched, s': Sched)
    requires Evolves(s, s')
    ensures Quiet(s, s')
  {
    EvolvesKeeps(s, s');
  }

  lemma SubmissionArchive(cfg: Config, m: Master, e: Event)
    requires Archive(m) && Possible(m, e) && (e.JobSubmitted? || e.GangSubmitted?)
    ensures Archive(Apply(cfg, m, e))
  {
    match e {
      case JobSubmitted(id, req, now) => SubmitJobArchive(m, SingleSpec(m, cfg, id, req, now));
      case GangSubmitted(gid, req, now) => SubmitGangArchive(m, gid, req, now);
    }
  }

  lemma EffectArchive(m: Master, e: Event, m': Master)
    requires Archive(m) && Static(m) && TimersOk(m) && Effect(m, e, m') && !e.JobSubmitted? && !e.GangSubmitted?
    ensures Archive(m')
  {
    match e {
      case Acknowledged(_) => QuietArchive(m, m');
      case RetryDue(i, _) =>
        RetryQuiet(m, i);
        QuietArchive(m, m');
      case WroteBack => WriteArchive(m);
      case _ =>
        EvolvesQuiet(m.sched, m'.sched);
        QuietArchive(m, m');
    }
  }

  lemma StepArchive(cfg: Config, es: seq<Event>, rs: seq<Run>, i: nat)
    requires IsRun(cfg, es, rs) && i < |es| && Archive(rs[i].m)
    ensures Archive(rs[i + 1].m)
  {
    RunStep(cfg, es, rs, i);
    if es[i].JobSubmitted? || es[i].GangSubmitted? {
      assert Steps(cfg, rs[i], es[i], rs[i + 1]);
      SubmissionArchive(cfg, rs[i].m, es[i]);
    } else {
      EffectArchive(rs[i].m, es[i], rs[i + 1].m);
    }
  }

  /** At every moment of every run the database agrees with memory up to states. */
  lemma {:induction false} AlwaysArchived(cfg: Config, es: seq<Event>, rs: seq<Run>, i: nat)
    requires IsRun(cfg, es, rs) && i < |rs| && Archive(rs[0].m)
    ensures Archive(rs[i].m)
  {
    if i > 0 {
      AlwaysArchived(cfg, es, rs, i - 1);
      StepArchive(cfg, es, rs, i - 1);
    }
  }
}
