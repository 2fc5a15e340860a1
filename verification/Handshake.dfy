/** The dispatch handshake leaves no silent loss: a RUNNING job is on the
    handshake list with its latest dispatch time, or was acknowledged since; and the
    sweep spares whom it has to spare. */
module Handshake {
  import opened Types
  import opened Scheduling
  import opened MasterSteps
  import opened Placement
  import opened Continuity
  import opened Events
  import opened Runs
  import opened Starts

  /** Where the running job stands with the handshake. */
  ghost predicate Accounted(r: Run, id: string)
    requires id in r.m.sched.jobs
  {
    Awaiting(r.m.pending, r.m.sched.jobs[id]) || id in r.acked
  }

  ghost predicate NoneLost(r: Run) {
    forall id | InState(r.m.sched, id, Running) :: Accounted(r, id)
  }

  lemma SteadyAccounts(r: Run, e: Event, m': Master, id: string)
    requires Sound(r.m.sched) && NoneLost(r) && Watched(r.m, m') && InState(m'.sched, id, Running)
    ensures Accounted(Moved(r, e, m'), id)
  {
    if !Awaiting(m'.pending, m'.sched.jobs[id]) {
      assert Accounted(r, id);
      assert id !in NewlyRunning(r.m, m');
    }
  }

  /** The sweep takes only entries whose jobs it stops. */
  lemma SweepAccounts(r: Run, ids: seq<string>, now: int, m': Master, id: string)
    requires Sound(r.m.sched) && NoneLost(r) && Effect(r.m, HandshakeChecked(ids, now), m')
    requires InState(m'.sched, id, Running)
    ensures Accounted(Moved(r, HandshakeChecked(ids, now), m'), id)
  {
    var cut := Unwatched(r.m, ids);
    assert id !in ids;
    if !Awaiting(m'.pending, m'.sched.jobs[id]) {
      assert !Awaiting(cut.pending, r.m.sched.jobs[id]);
      assert Accounted(r, id);
      assert id !in NewlyRunning(r.m, m');
    }
  }

  /** Other events start nothing and leave the list alone. */
  lemma QuietAccounts(r: Run, e: Event, m': Master, id: string)
    requires NoneLost(r) && InState(m'.sched, id, Running)
    requires InState(r.m.sched, id, Running) && m'.sched.jobs[id] == r.m.sched.jobs[id]
    requires m'.pending == r.m.pending || (e.Acknowledged? && m' == Acknowledge(r.m, e.id)
          && r.m.sched.jobs[id].spec.id == id)
    ensures Accounted(Moved(r, e, m'), id)
  {
    assert Accounted(r, id);
    assert id !in NewlyRunning(r.m, m');
  }

  lemma StillAccounts(r: Run, e: Event, m': Master, id: string)
    requires Inv(r) && NoneLost(r) && Effect(r.m, e, m') && InState(m'.sched, id, Running)
    requires e.JobSubmitted? || e.GangSubmitted? || e.Acknowledged? || e.WroteBack?
    ensures Accounted(Moved(r, e, m'), id)
  {
    assert id in r.m.sched.jobs;
    QuietAccounts(r, e, m', id);
  }

  lemma RetryAccounts(r: Run, e: Event, m': Master, id: string)
    requires Inv(r) && NoneLost(r) && e.RetryDue? && Effect(r.m, e, m') && InState(m'.sched, id, Running)
    ensures Accounted(Moved(r, e, m'), id)
  {
    assert TimerOk(r.m.sched, r.m.timers[e.timer]);
    RetryEffect(r.m, e.timer);
    QuietAccounts(r, e, m', id);
  }

  lemma JobAccounts(r: Run, e: Event, m': Master, id: string)
    requires Inv(r) && NoneLost(r) && Effect(r.m, e, m') && InState(m'.sched, id, Running)
    ensures Accounted(Moved(r, e, m'), id)
  {
    match e {
      case JobSubmitted(_, _, _) => StillAccounts(r, e, m', id);
      case GangSubmitted(_, _, _) => StillAccounts(r, e, m', id);
      case Acknowledged(_) => StillAccounts(r, e, m', id);
      case WroteBack => StillAccounts(r, e, m', id);
      case RetryDue(_, _) => RetryAccounts(r, e, m', id);
      case HandshakeChecked(ids, now) => SweepAccounts(r, ids, now, m', id);
      case _ => SteadyAccounts(r, e, m', id);
    }
  }

  /** Every event keeps the handshake accounted for. */
  lemma EventAccounts(r: Run, e: Event, m': Master)
    requires Inv(r) && NoneLost(r) && Effect(r.m, e, m')
    ensures NoneLost(Moved(r, e, m'))
  {
    forall id | InState(m'.sched, id, Running) ensures Accounted(Moved(r, e, m'), id) {
      JobAccounts(r, e, m', id);
    }
  }

  lemma StepAccounts(cfg: Config, es: seq<Event>, rs: seq<Run>, i: nat)
    requires IsRun(cfg, es, rs) && i < |es| && NoneLost(rs[i])
    ensures NoneLost(rs[i + 1])
  {
    RunStep(cfg, es, rs, i);
    EventAccounts(rs[i], es[i], rs[i + 1].m);
  }

  /** In every state of every run, no running job is lost. */
  lemma {:induction false} NoSilentLoss(cfg: Config, es: seq<Event>, rs: seq<Run>, i: nat)
    requires IsRun(cfg, es, rs) && i < |rs|
    ensures NoneLost(rs[i])
  {
    if i > 0 {
      NoSilentLoss(cfg, es, rs, i - 1);
      StepAccounts(cfg, es, rs, i - 1);
    }
  }

  /** The job is acknowledged or was dispatched at most ten seconds ago. */
  predicate Recent(r: Run, id: string, now: int) {
    id in r.acked || (id in r.m.sched.jobs && now - r.m.sched.jobs[id].startTime <= 10_000_000_000)
  }

  /** The job waits in the heap again, holding no node and bearing no trace. */
  predicate BackInHeap(m: Master, id: string) {
    InState(m.sched, id, Queued) && Blank(m.sched.jobs[id]) && m.sched.jobs[id].spec in m.sched.queue
  }

  lemma {:induction false} RequeueAllQueues(m: Master, ids: seq<string>, id: string)
    requires Sound(m.sched)
    requires (id in ids && InState(m.sched, id, Running)) || InState(m.sched, id, Queued)
    ensures InState(RequeueAll(m, ids).sched, id, Queued)
    decreases |ids|
  {
    if ids != [] {
      RequeueAllQueues(Requeue1(m, ids[0]), ids[1..], id);
    }
  }

  lemma QueuedIsBack(m: Master, id: string)
    requires Core(m) && InState(m.sched, id, Queued)
    ensures BackInHeap(m, id)
  {
    assert WellPlaced(m.sched.jobs[id], m.members);
    assert m.sched.jobs[id].spec in multiset(m.sched.queue);
  }

  /** What is still on the list after the sweep has not expired. */
  lemma ListedIsRecent(m: Master, ids: seq<string>, now: int, id: string)
    requires ListsExpired(m, ids, now) && id in HandshakeSweep(m, ids).pending
    ensures now - HandshakeSweep(m, ids).pending[id] <= 10_000_000_000
  {
    RequeueEntries(Unwatched(m, ids), ids);
    assert id !in ids;
    assert !Expired(m, id, now);
  }

  /** After a sweep every running job was acknowledged since its dispatch or was
      dispatched at most ten seconds ago. */
  lemma SweepLeavesRecent(r: Run, ids: seq<string>, now: int, id: string)
    requires Inv(r) && NoneLost(r) && ListsExpired(r.m, ids, now)
    requires InState(HandshakeSweep(r.m, ids).sched, id, Running)
    ensures Recent(Moved(r, HandshakeChecked(ids, now), HandshakeSweep(r.m, ids)), id, now)
  {
    var e := HandshakeChecked(ids, now);
    var m' := HandshakeSweep(r.m, ids);
    HandshakeKeeps(r.m, ids);
    SweepAccounts(r, ids, now, m', id);
    if Awaiting(m'.pending, m'.sched.jobs[id]) {
      ListedIsRecent(r.m, ids, now, id);
    }
  }

  /** A running job whose handshake expired is back in the heap after the sweep,
      and the ledger holds exactly what the jobs still running hold. */
  lemma SweepRequeues(m: Master, ids: seq<string>, now: int, id: string)
    requires Static(m) && ListsExpired(m, ids, now)
    requires InState(m.sched, id, Running) && id in m.pending && now - m.pending[id] > 10_000_000_000
    ensures BackInHeap(HandshakeSweep(m, ids), id)
    ensures LedgerExact(HandshakeSweep(m, ids).sched.jobs, HandshakeSweep(m, ids).ledger)
  {
    HandshakeKeeps(m, ids);
    RequeueAllQueues(Unwatched(m, ids), ids, id);
    QueuedIsBack(HandshakeSweep(m, ids), id);
  }

  // ---------- whom the sweep spares ----------

  /** The entry is older than ten seconds. */
  predicate Late(m: Master, id: string, now: int) {
    id in m.pending && now - m.pending[id] > 10_000_000_000
  }

  function BackToQueue(rec: JobRec): JobRec {
    rec.(state := Queued, worker := "", startTime := 0)
  }

  lemma Requeue1Touches(m: Master, k: string, id: string)
    requires Sound(m.sched) && id in m.sched.jobs
    ensures var s' := Requeue1(m, k).sched;
            && Sound(s') && id in s'.jobs
            && s'.jobs[id] == (if id == k && m.sched.jobs[id].state == Running then BackToQueue(m.sched.jobs[id])
                               else m.sched.jobs[id])
  {
    hide ReleasedIfPlaced;
  }

  lemma {:induction false} RequeueTouches(m: Master, ids: seq<string>, id: string)
    requires Sound(m.sched) && id in m.sched.jobs
    ensures var s' := RequeueAll(m, ids).sched;
            && id in s'.jobs
            && s'.jobs[id] == (if id in ids && m.sched.jobs[id].state == Running
                               then BackToQueue(m.sched.jobs[id])
                               else m.sched.jobs[id])
    decreases |ids|
  {
    if ids != [] {
      Requeue1Touches(m, ids[0], id);
      hide Requeue1, Sound;
      RequeueTouches(Requeue1(m, ids[0]), ids[1..], id);
    }
  }

  /** A sweep takes exactly the late entries off the list and puts exactly the RUNNING
      jobs among them back, whatever the order of the listing; every other record and
      every other entry stays as it is. */
  lemma SweepExact(m: Master, ids: seq<string>, now: int, id: string)
    requires Sound(m.sched) && ListsExpired(m, ids, now)
    ensures var m' := HandshakeSweep(m, ids);
            && (id in m'.pending <==> id in m.pending && !Late(m, id, now))
            && (id in m'.pending ==> m'.pending[id] == m.pending[id])
            && (id in m.sched.jobs ==>
                  && id in m'.sched.jobs
                  && m'.sched.jobs[id] == (if Late(m, id, now) && m.sched.jobs[id].state == Running
                                           then m.sched.jobs[id].(state := Queued, worker := "", startTime := 0)
                                           else m.sched.jobs[id]))
  {
    var cut := Unwatched(m, ids);
    RequeueEntries(cut, ids);
    assert id in ids <==> Expired(m, id, now);
    if id in m.sched.jobs {
      RequeueTouches(cut, ids, id);
    }
  }

  /** An acknowledgement takes its job off the list and leaves everything else alone. */
  lemma AcknowledgementIsExact(cfg: Config, es: seq<Event>, rs: seq<Run>, i: nat, id: string)
    requires IsRun(cfg, es, rs) && i < |es| && es[i].Acknowledged?
    ensures rs[i + 1].m == rs[i].m.(pending := rs[i + 1].m.pending)
    ensures id in rs[i + 1].m.pending <==> id in rs[i].m.pending && id != es[i].id
    ensures id in rs[i + 1].m.pending ==> rs[i + 1].m.pending[id] == rs[i].m.pending[id]
    ensures id in rs[i + 1].acked <==> id in rs[i].acked || id == es[i].id
  {
    assert Steps(cfg, rs[i], es[i], rs[i + 1]);
    assert NewlyRunning(rs[i].m, rs[i + 1].m) == {};
  }

  /** Who acknowledged is not on the list. */
  ghost predicate AckedAreOff(r: Run) {
    forall id | id in r.acked :: id !in r.m.pending
  }

  lemma StepKeepsAckedOff(cfg: Config, es: seq<Event>, rs: seq<Run>, i: nat)
    requires IsRun(cfg, es, rs) && i < |es| && AckedAreOff(rs[i])
    ensures AckedAreOff(rs[i + 1])
  {
    hide Steps, Initial;
    var r' := rs[i + 1];
    forall id | id in r'.acked ensures id !in r'.m.pending {
      if es[i].Acknowledged? {
        AcknowledgementIsExact(cfg, es, rs, i, id);
      } else {
        OtherKeepsOff(cfg, es, rs, i, id);
      }
    }
  }

  lemma OtherKeepsOff(cfg: Config, es: seq<Event>, rs: seq<Run>, i: nat, id: string)
    requires IsRun(cfg, es, rs) && i < |es| && !es[i].Acknowledged?
    requires id in rs[i + 1].acked && (id in rs[i].acked ==> id !in rs[i].m.pending)
    ensures id !in rs[i + 1].m.pending
  {
    assert rs[i + 1] == Moved(rs[i], es[i], rs[i + 1].m) by {
      assert Steps(cfg, rs[i], es[i], rs[i + 1]);
    }
    hide Steps, Initial;
    assert id in rs[i].acked && id !in NewlyRunning(rs[i].m, rs[i + 1].m);
    if id in rs[i + 1].m.pending {
      NewEntry(cfg, es, rs, i, id);
      assert false;
    }
  }

  /** In every state of every run: a job that was acknowledged since its last dispatch
      is not on the handshake list. */
  lemma {:induction false} AcknowledgedIsOff(cfg: Config, es: seq<Event>, rs: seq<Run>, i: nat)
    requires IsRun(cfg, es, rs) && i < |rs|
    ensures AckedAreOff(rs[i])
  {
    if i > 0 {
      hide Steps, Initial, AckedAreOff;
      AcknowledgedIsOff(cfg, es, rs, i - 1);
      StepKeepsAckedOff(cfg, es, rs, i - 1);
    }
  }

  /** Hence, over every run, a handshake sweep leaves every acknowledged job exactly as
      it is; and every job that was dispatched at most ten seconds ago. */
  lemma AcknowledgedIsSpared(cfg: Config, es: seq<Event>, rs: seq<Run>, i: nat, id: string)
    requires IsRun(cfg, es, rs) && i < |es| && es[i].HandshakeChecked? && id in rs[i].m.sched.jobs
    requires id in rs[i].acked
          || (id in rs[i].m.pending && es[i].now - rs[i].m.pending[id] <= 10_000_000_000)
    ensures id in rs[i + 1].m.sched.jobs && rs[i + 1].m.sched.jobs[id] == rs[i].m.sched.jobs[id]
  {
    Reachable(cfg, es, rs, i);
    assert Steps(cfg, rs[i], es[i], rs[i + 1]) && Sound(rs[i].m.sched);
    hide Initial, Inv, Sound, HandshakeSweep, ListsExpired;
    AcknowledgedIsOff(cfg, es, rs, i);
    SweepExact(rs[i].m, es[i].expired, es[i].now, id);
  }
}
