/** The database lags behind memory but never loses an update: whatever it does
    not hold yet is announced in the writer's channel. */
module WriteBehind {
  import opened Types
  import opened MasterSteps
  import opened Continuity
  import opened Events
  import opened Runs

  predicate JobSaved(m: Master, id: string)
    requires id in m.sched.jobs
  {
    id in m.saved.jobs && m.saved.jobs[id] == m.sched.jobs[id]
  }

  predicate GroupSaved(m: Master, gid: string)
    requires gid in m.sched.groups
  {
    gid in m.saved.groups && m.saved.groups[gid] == m.sched.groups[gid]
  }

  /** Every tracked object is stored as it is, or its write is in the channel. */
  ghost predicate Agrees(m: Master) {
    && (forall id | id in m.sched.jobs :: JobSaved(m, id) || JobWrite(id) in m.sched.writes)
    && (forall gid | gid in m.sched.groups :: GroupSaved(m, gid) || GroupWrite(gid) in m.sched.writes)
  }

  /** Changes that are announced keep the agreement. */
  lemma NotifiedAgrees(m: Master, m': Master)
    requires Agrees(m) && Notified(m.sched, m'.sched) && m'.saved == m.saved
    ensures Agrees(m')
  {
    forall id | id in m'.sched.jobs ensures JobSaved(m', id) || JobWrite(id) in m'.sched.writes {
      assert id in m.sched.jobs ==> JobSaved(m, id) || JobWrite(id) in m.sched.writes;
    }
    forall gid | gid in m'.sched.groups ensures GroupSaved(m', gid) || GroupWrite(gid) in m'.sched.writes {
      assert gid in m.sched.groups ==> GroupSaved(m, gid) || GroupWrite(gid) in m.sched.writes;
    }
  }

  lemma RetryNotifies(m: Master, i: nat)
    requires i < |m.timers| && TimerOk(m.sched, m.timers[i]) && Sound(m.sched)
    ensures Notified(m.sched, RetryFires(m, i).sched)
  {
    RetryEffect(m, i);
    assert JobWrite(m.timers[i].jobId) in RetryFires(m, i).sched.writes;
  }

  /** The writer saves the object as it is when the write is taken. */
  lemma WriteAgrees(m: Master)
    requires Agrees(m) && m.sched.writes != []
    ensures Agrees(WriteOne(m))
  {
    var m' := WriteOne(m);
    forall id | id in m'.sched.jobs ensures JobSaved(m', id) || JobWrite(id) in m'.sched.writes {
      assert JobSaved(m, id) || JobWrite(id) in m.sched.writes;
    }
    forall gid | gid in m'.sched.groups ensures GroupSaved(m', gid) || GroupWrite(gid) in m'.sched.writes {
      assert GroupSaved(m, gid) || GroupWrite(gid) in m.sched.writes;
    }
  }

  lemma EventAgrees(m: Master, e: Event, m': Master)
    requires Static(m) && TimersOk(m) && Agrees(m) && Effect(m, e, m')
    ensures Agrees(m')
  {
    match e {
      case Acknowledged(_) =>
      case WroteBack => WriteAgrees(m);
      case RetryDue(i, _) =>
        assert TimerOk(m.sched, m.timers[i]);
        RetryNotifies(m, i);
        NotifiedAgrees(m, m');
      case _ => NotifiedAgrees(m, m');
    }
  }

  lemma StepAgrees(cfg: Config, es: seq<Event>, rs: seq<Run>, i: nat)
    requires IsRun(cfg, es, rs) && i < |es| && Agrees(rs[i].m)
    ensures Agrees(rs[i + 1].m)
  {
    RunStep(cfg, es, rs, i);
    EventAgrees(rs[i].m, es[i], rs[i + 1].m);
  }

  /** In every state of every run the database and the channel together hold
      every tracked job and registered group. */
  lemma {:induction false} NoUpdateLost(cfg: Config, es: seq<Event>, rs: seq<Run>, i: nat)
    requires IsRun(cfg, es, rs) && i < |rs| && Agrees(rs[0].m)
    ensures Agrees(rs[i].m)
  {
    if i > 0 {
      NoUpdateLost(cfg, es, rs, i - 1);
      StepAgrees(cfg, es, rs, i - 1);
    }
  }

  /** Let the writer empty the channel, as a clean shutdown does. */
  function Flushed(m: Master): Master
    decreases |m.sched.writes|
  {
    if m.sched.writes == [] then m else Flushed(WriteOne(m))
  }

  /** After flushing, the database holds exactly what memory holds; memory and
      the records of untracked objects are untouched. */
  lemma {:induction false} FlushSynchronises(m: Master)
    requires Agrees(m)
    ensures Flushed(m) == m.(saved := Flushed(m).saved, sched := m.sched.(writes := []))
    ensures forall id | id in m.sched.jobs :: JobSaved(Flushed(m), id)
    ensures forall gid | gid in m.sched.groups :: GroupSaved(Flushed(m), gid)
    ensures forall id | id !in m.sched.jobs ::
        (id in Flushed(m).saved.jobs <==> id in m.saved.jobs)
        && (id in m.saved.jobs ==> Flushed(m).saved.jobs[id] == m.saved.jobs[id])
    decreases |m.sched.writes|
  {
    if m.sched.writes != [] {
      WriteAgrees(m);
      FlushSynchronises(WriteOne(m));
    }
  }
}
