/** What every piece of every master step leaves alone: tracked jobs never
    disappear or change identity, finished records are frozen, every change is
    announced to the database writer, and a job that starts is put on the
    handshake list.  The relation is transitive, so sweeps inherit it. */
module Continuity {
  import opened Types
  import opened Scheduling
  import opened MasterSteps

  predicate Finished(rec: JobRec) {
    rec.state == Completed || rec.state == Failed || rec.state == Cancelled
  }

  /** Identity and retry count are kept; a finished record is kept entirely. */
  ghost predicate Follows(r: JobRec, r': JobRec) {
    && r'.spec == r.spec && r'.retryCount == r.retryCount
    && (Finished(r) ==> r' == r)
  }

  ghost predicate Evolves(s: Sched, s': Sched) {
    && s'.maxQueueSize == s.maxQueueSize
    && s'.jobs.Keys == s.jobs.Keys
    && (forall id | id in s.jobs :: Follows(s.jobs[id], s'.jobs[id]))
    && s'.groups.Keys == s.groups.Keys
    && (forall gid | gid in s.groups :: Moves(s.groups[gid], s'.groups[gid]))
  }

  /** Where a group's state can get to: forward only, and never out of
      COMPLETED or FAILED. */
  predicate Reaches(st: GroupState, st': GroupState) {
    st' == st || st == GroupPending || (st == GroupRunning && st' != GroupPending)
  }

  predicate Moves(g: GroupRec, g': GroupRec) {
    g' == g.(state := g'.state) && Reaches(g.state, g'.state)
  }

  /** Whatever changed is in the channel. */
  ghost predicate Notified(s: Sched, s': Sched) {
    && s.writes <= s'.writes
    && s.jobs.Keys <= s'.jobs.Keys && s.groups.Keys <= s'.groups.Keys
    && (forall id | id in s'.jobs :: (id in s.jobs && s'.jobs[id] == s.jobs[id]) || JobWrite(id) in s'.writes)
    && (forall gid | gid in s'.groups ::
          (gid in s.groups && s'.groups[gid] == s.groups[gid]) || GroupWrite(gid) in s'.writes)
  }

  predicate Awaiting(pending: map<string, int>, rec: JobRec) {
    rec.spec.id in pending && pending[rec.spec.id] == rec.startTime
  }

  /** A running job was put on the handshake list, or ran before with the same
      start time and was not taken off the list. */
  ghost predicate Watched(m: Master, m': Master) {
    forall id | id in m'.sched.jobs && m'.sched.jobs[id].state == Running ::
      || Awaiting(m'.pending, m'.sched.jobs[id])
      || (&& InState(m.sched, id, Running)
          && m.sched.jobs[id].startTime == m'.sched.jobs[id].startTime
          && m.sched.jobs[id].spec == m'.sched.jobs[id].spec
          && !Awaiting(m.pending, m.sched.jobs[id]))
  }

  ghost predicate Steady(m: Master, m': Master) {
    && Evolves(m.sched, m'.sched)
    && Notified(m.sched, m'.sched)
    && Watched(m, m')
    && m'.saved == m.saved
    && m.sent <= m'.sent
    && m'.timers == m.timers
    && m'.deadLetters == m.deadLetters
  }

  lemma SteadyTrans(a: Master, b: Master, c: Master)
    requires Steady(a, b) && Steady(b, c)
    ensures Steady(a, c)
  {
    NotifiedTrans(a.sched, b.sched, c.sched);
    EvolvesTrans(a.sched, b.sched, c.sched);
  }

  lemma EvolvesTrans(a: Sched, b: Sched, c: Sched)
    requires Evolves(a, b) && Evolves(b, c)
    ensures Evolves(a, c)
  {
    forall id | id in a.jobs ensures Follows(a.jobs[id], c.jobs[id]) {
      assert Follows(a.jobs[id], b.jobs[id]) && Follows(b.jobs[id], c.jobs[id]);
    }
    forall gid | gid in a.groups ensures Moves(a.groups[gid], c.groups[gid]) {
      assert Moves(a.groups[gid], b.groups[gid]) && Moves(b.groups[gid], c.groups[gid]);
    }
  }

  lemma NotifiedTrans(a: Sched, b: Sched, c: Sched)
    requires Notified(a, b) && Notified(b, c)
    ensures Notified(a, c)
  {
    assert forall op | op in b.writes :: op in c.writes;
  }

  // ---------- primitives ----------

  /** A queued or running job gets a new record. */
  lemma PutSteady(m: Master, m': Master, id: string, rec: JobRec)
    requires id in m.sched.jobs && Follows(m.sched.jobs[id], rec) && m.sched.jobs[id].spec.id == id
    requires m'.sched == Put(m.sched, rec).(queue := m'.sched.queue)
    requires rec.state == Running ==> Awaiting(m'.pending, rec)
    requires forall k | k in m.pending && k != id :: k in m'.pending && m'.pending[k] == m.pending[k]
    requires forall k | k in m.sched.jobs :: m.sched.jobs[k].spec.id == k
    requires m' == m.(sched := m'.sched, pending := m'.pending, ledger := m'.ledger, breaker := m'.breaker,
                      usage := m'.usage, sent := m'.sent)
    requires m.sent <= m'.sent
    ensures Steady(m, m')
  {
    assert JobWrite(id) in m'.sched.writes;
  }

  lemma AsideSteady(m: Master, m': Master)
    requires m' == m.(sched := m.sched.(queue := m'.sched.queue), ledger := m'.ledger, breaker := m'.breaker,
                      usage := m'.usage, members := m'.members)
    ensures Steady(m, m')
  {
  }

  lemma GroupSteady(m: Master, gid: string, st: GroupState)
    requires GroupsNamed(m.sched)
    requires gid in m.sched.groups ==> Reaches(m.sched.groups[gid].state, st)
    ensures Steady(m, m.(sched := SetGroupState(m.sched, gid, st)))
  {
    if gid in m.sched.groups {
      assert GroupWrite(gid) in SetGroupState(m.sched, gid, st).writes;
    }
  }

  ghost predicate Sound(s: Sched) {
    && GroupsNamed(s)
    && (forall k | k in s.jobs :: s.jobs[k].spec.id == k)
  }

  lemma SoundStays(s: Sched, s': Sched)
    requires Sound(s) && Evolves(s, s')
    ensures Sound(s')
  {
    forall k | k in s'.jobs ensures s'.jobs[k].spec.id == k {
      assert Follows(s.jobs[k], s'.jobs[k]);
    }
    forall gid | gid in s'.groups ensures s'.groups[gid].id == gid {
      assert Moves(s.groups[gid], s'.groups[gid]);
    }
  }
}
