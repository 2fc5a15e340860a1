/** Phases 1 and 2 of the dispatch tick: safe, and work-conserving for single
    jobs. */
module DispatchTick {
  import opened Types
  import opened HeapOrder
  import opened Scheduling
  import opened Ledger
  import opened CircuitBreaker
  import opened MasterSteps
  import opened Placement
  import opened CoreSteps
  import opened GangScheduling
  import opened Groups

  /** The member can take the job now, and the job is a single one. */
  ghost predicate CanTake(m: Master, matches: Matcher, spec: JobSpec, x: Member, now: int) {
    && x in m.members && spec in m.sched.queue && spec.groupId == ""
    && Takes(m.breaker, m.ledger, matches, spec, x, now)
  }

  /** Exactly one job was started: `spec`, on `x`, out of the heap and charged. */
  ghost predicate StartsOne(m: Master, m': Master, spec: JobSpec, x: Member, now: int) {
    && InState(m.sched, spec.id, Queued) && m.sched.jobs[spec.id].spec == spec
    && m'.sched.jobs == m.sched.jobs[spec.id := Started(m.sched.jobs[spec.id], x.name, now)]
    && multiset(m'.sched.queue) == multiset(m.sched.queue) - multiset{spec}
    && m'.sched.groups == m.sched.groups
    && m'.ledger == Allocated(m.ledger, x.name, spec.need)
    && m'.pending == m.pending[spec.id := now]
    && m'.sent == m.sent + [Order(m.members, spec, spec.env, x.name)]
  }

  /** Nothing but the breaker's memory of expired blocks changed. */
  ghost predicate Idles(m: Master, m': Master, now: int) {
    m' == m.(breaker := m'.breaker) && SameAnswers(m.breaker, m'.breaker, now)
  }

  lemma DispatchStarts(m: Master, m': Master, spec: JobSpec, x: Member, now: int)
    requires InState(m.sched, spec.id, Queued) && m.sched.jobs[spec.id].spec == spec
    requires m' == m.(sched := m.sched.(queue := m'.sched.queue), breaker := m'.breaker)
    requires multiset(m'.sched.queue) == multiset(m.sched.queue) - multiset{spec}
    ensures StartsOne(m, Dispatch(m', spec, spec.env, x.name, now), spec, x, now)
  {
  }

  lemma StartOne(m: Master, m': Master, p: nat, x: Member, now: int)
    requires Core(m) && p < |m.sched.queue|
    requires m' == m.(sched := m.sched.(queue := Removed(m.sched.queue, p)), breaker := m'.breaker)
    requires x in m.members && CanDispatch(m.ledger, x, m.sched.queue[p].need)
    ensures var spec := m.sched.queue[p];
            && StartsOne(m, Dispatch(m', spec, spec.env, x.name, now), spec, x, now)
            && Core(Dispatch(m', spec, spec.env, x.name, now))
  {
    var spec := m.sched.queue[p];
    PositionTakesJob(m.sched.jobs, m.sched.queue, p);
    hide CoreOf, StartsOne, Dispatch, Removed, CanDispatch;
    StartCore(m, m', spec.id, spec.env, x, now);
    DispatchStarts(m, m', spec, x, now);
  }

  // ---------- phase 2 ----------

  /** No member before the k-th can take any single job, and the p-th slot of the heap
      holds the first one that the k-th can take. */
  ghost predicate FirstChance(m: Master, matches: Matcher, now: int, k: nat, p: nat) {
    && k < |m.members| && p < |m.sched.queue|
    && CanTake(m, matches, m.sched.queue[p], m.members[k], now)
    && (forall j | 0 <= j < k :: PassedOver(m, m.members[j], matches, now))
    && (forall q | 0 <= q < p :: !CanTake(m, matches, m.sched.queue[q], m.members[k], now))
  }

  ghost predicate StartsAt(m: Master, m': Master, matches: Matcher, now: int, k: nat, p: nat) {
    FirstChance(m, matches, now, k, p) && StartsOne(m, m', m.sched.queue[p], m.members[k], now)
  }

  /** The first member that can take any single job was given the first that it can. */
  ghost predicate StartsFirst(m: Master, m': Master, matches: Matcher, now: int) {
    exists k: nat, p: nat :: StartsAt(m, m', matches, now, k, p)
  }

  ghost predicate StartsSome(m: Master, m': Master, matches: Matcher, now: int) {
    exists x, spec :: CanTake(m, matches, spec, x, now) && StartsOne(m, m', spec, x, now)
  }

  ghost predicate PassedOver(m: Master, x: Member, matches: Matcher, now: int) {
    forall spec :: !CanTake(m, matches, spec, x, now)
  }

  ghost predicate Hopeless(m: Master, members: seq<Member>, matches: Matcher, now: int) {
    forall x, spec | x in members :: !CanTake(m, matches, spec, x, now)
  }

  ghost predicate FillOutcome(m: Master, m': Master, matches: Matcher, now: int) {
    (Idles(m, m', now) && Hopeless(m, m.members, matches, now)) || StartsFirst(m, m', matches, now)
  }

  /** Nobody before the k-th member can take anything. */
  ghost predicate InVain(m: Master, matches: Matcher, now: int, k: nat) {
    forall j | 0 <= j < k && j < |m.members| :: PassedOver(m, m.members[j], matches, now)
  }

  /** One step of the search for a member to fill. */
  lemma FillUnfolds(m: Master, k: nat, matches: Matcher, now: int) returns (asked: Master)
    requires k < |m.members|
    ensures asked == m.(breaker := asked.breaker) && SameAnswers(m.breaker, asked.breaker, now)
    ensures var x := m.members[k];
            var fits := Fillable(m.ledger, matches, x);
            var p := FirstMatch(m.sched.queue, fits);
            var m' := FillPhase(m, m.members[k..], matches, now);
            if x.hasMeta && !Blocks(m.breaker, x.name, now) && BackfillChoice(m.sched, fits).Some?
            then m' == Dispatch(asked.(sched := Backfill(m.sched, fits)), BackfillChoice(m.sched, fits).value.spec,
                                BackfillChoice(m.sched, fits).value.spec.env, x.name, now)
            else m' == FillPhase(asked, m.members[k + 1..], matches, now)
  {
    assert m.members[k..][0] == m.members[k] && m.members[k..][1..] == m.members[k + 1..];
    asked := if m.members[k].hasMeta then m.(breaker := Queried(m.breaker, m.members[k].name, now)) else m;
    QuerySameAnswers(m.breaker, m.members[k].name, now);
    hide Queried, Dispatch, Backfill, BackfillChoice, FirstMatch, SameAnswers;
  }

  /** The k-th member either takes the first job that it can or is passed over for
      good reason. */
  lemma FillHead(m: Master, k: nat, matches: Matcher, now: int) returns (asked: Master)
    requires Core(m) && k < |m.members| && InVain(m, matches, now, k)
    ensures asked == m.(breaker := asked.breaker) && SameAnswers(m.breaker, asked.breaker, now)
    ensures var m' := FillPhase(m, m.members[k..], matches, now);
            || (Core(m') && StartsFirst(m, m', matches, now))
            || (m' == FillPhase(asked, m.members[k + 1..], matches, now) && PassedOver(m, m.members[k], matches, now))
  {
    var x := m.members[k];
    asked := FillUnfolds(m, k, matches, now);
    var fits := Fillable(m.ledger, matches, x);
    var p := FirstMatch(m.sched.queue, fits);
    if x.hasMeta && !Blocks(m.breaker, x.name, now) && p < |m.sched.queue| {
      FirstFits(m, matches, now, k, p);
      PositionTakesJob(m.sched.jobs, m.sched.queue, p);
      assert CanDispatch(m.ledger, x, m.sched.queue[p].need) by {
        assert fits(m.sched.queue[p]);
      }
      hide FillPhase, Core, StartsOne, FirstChance, InVain, SameAnswers, Blocks, CanDispatch, Fillable, Dispatch,
           Removed;
      StartOne(m, asked.(sched := Backfill(m.sched, fits)), p, x, now);
      assert StartsAt(m, FillPhase(m, m.members[k..], matches, now), matches, now, k, p);
    } else {
      NoneFits(m, x, matches, now);
      hide FillPhase, Core, InVain, SameAnswers, CanDispatch, CanTake, StartsFirst;
    }
  }

  /** What the search of the heap array finds is the first job that the member can take. */
  lemma FirstFits(m: Master, matches: Matcher, now: int, k: nat, p: nat)
    requires k < |m.members| && p < |m.sched.queue| && InVain(m, matches, now, k)
    requires m.members[k].hasMeta && !Blocks(m.breaker, m.members[k].name, now)
    requires p == FirstMatch(m.sched.queue, Fillable(m.ledger, matches, m.members[k]))
    ensures FirstChance(m, matches, now, k, p)
  {
    var fits := Fillable(m.ledger, matches, m.members[k]);
    assert fits(m.sched.queue[p]);
    forall q | 0 <= q < p ensures !CanTake(m, matches, m.sched.queue[q], m.members[k], now) {
      assert !fits(m.sched.queue[q]);
    }
  }

  /** Backfill starts the first job that the first able member can take, or no member
      can take any single job. */
  lemma {:induction false} FillCorrect(m: Master, k: nat, matches: Matcher, now: int)
    requires Core(m) && k <= |m.members| && InVain(m, matches, now, k)
    ensures Core(FillPhase(m, m.members[k..], matches, now))
    ensures FillOutcome(m, FillPhase(m, m.members[k..], matches, now), matches, now)
    decreases |m.members| - k
  {
    if k < |m.members| {
      var m' := FillPhase(m, m.members[k..], matches, now);
      var asked := FillHead(m, k, matches, now);
      if !(Core(m') && StartsFirst(m, m', matches, now)) {
        TakeAfterQuery(m, asked, matches, now);
        FillCorrect(asked, k + 1, matches, now);
        OutcomeAfterQuery(m, asked, m', matches, now);
      }
    } else {
      AllInVain(m, matches, now);
    }
  }

  lemma AllInVain(m: Master, matches: Matcher, now: int)
    requires InVain(m, matches, now, |m.members|)
    ensures Hopeless(m, m.members, matches, now)
  {
    forall x, spec | x in m.members ensures !CanTake(m, matches, spec, x, now) {
      var j :| 0 <= j < |m.members| && m.members[j] == x;
      assert PassedOver(m, m.members[j], matches, now);
    }
  }

  lemma OutcomeAfterQuery(m: Master, asked: Master, m': Master, matches: Matcher, now: int)
    requires asked == m.(breaker := asked.breaker) && SameAnswers(m.breaker, asked.breaker, now)
    requires FillOutcome(asked, m', matches, now)
    ensures FillOutcome(m, m', matches, now)
  {
    TakeAfterQuery(m, asked, matches, now);
    if StartsFirst(asked, m', matches, now) {
      var k: nat, p: nat :| StartsAt(asked, m', matches, now, k, p);
      forall j | 0 <= j < k ensures PassedOver(m, m.members[j], matches, now) {
        assert PassedOver(asked, asked.members[j], matches, now);
      }
      assert StartsAt(m, m', matches, now, k, p);
    } else {
      forall x, spec | x in m.members ensures !CanTake(m, matches, spec, x, now) {
        assert !CanTake(asked, matches, spec, x, now);
      }
    }
  }

  lemma NoneFits(m: Master, x: Member, matches: Matcher, now: int)
    requires !x.hasMeta || Blocks(m.breaker, x.name, now)
          || FirstMatch(m.sched.queue, Fillable(m.ledger, matches, x)) == |m.sched.queue|
    ensures PassedOver(m, x, matches, now)
  {
    forall spec ensures !CanTake(m, matches, spec, x, now) {
      if spec in m.sched.queue {
        var k :| 0 <= k < |m.sched.queue| && m.sched.queue[k] == spec;
        assert !x.hasMeta || Blocks(m.breaker, x.name, now) || !Fillable(m.ledger, matches, x)(m.sched.queue[k]);
      }
    }
  }

  /** Whether a member can take a job does not depend on forgotten blocks. */
  lemma TakeAfterQuery(m: Master, asked: Master, matches: Matcher, now: int)
    requires asked == m.(breaker := asked.breaker) && SameAnswers(m.breaker, asked.breaker, now)
    ensures forall x, spec :: CanTake(asked, matches, spec, x, now) <==> CanTake(m, matches, spec, x, now)
  {
    forall x, spec ensures CanTake(asked, matches, spec, x, now) <==> CanTake(m, matches, spec, x, now) {
      TakesAlike(m.breaker, asked.breaker, m.ledger, matches, spec, x, now);
    }
  }

  // ---------- phases 1 and 2 ----------

  /** The job at the top of the heap, if it is a single one. */
  predicate SingleOnTop(m: Master) {
    m.sched.queue != [] && m.sched.queue[0].groupId == ""
  }

  /** The top job starts on the k-th member, the first that can take it. */
  ghost predicate TopStartsAt(m: Master, m': Master, matches: Matcher, now: int, k: nat)
    requires SingleOnTop(m)
  {
    && k < |m.members| && CanTake(m, matches, m.sched.queue[0], m.members[k], now)
    && (forall j | 0 <= j < k :: !CanTake(m, matches, m.sched.queue[0], m.members[j], now))
    && StartsOne(m, m', m.sched.queue[0], m.members[k], now)
  }

  ghost predicate TopStarts(m: Master, m': Master, matches: Matcher, now: int)
    requires SingleOnTop(m)
  {
    exists k: nat :: TopStartsAt(m, m', matches, now, k)
  }

  /** With a single job on top: whenever a member can take the top job, that one
      starts on the first such member; otherwise if a member can take any single job,
      the first such member starts the first that it can; otherwise nothing happens. */
  ghost predicate Conserves(m: Master, m': Master, matches: Matcher, now: int)
    requires SingleOnTop(m)
  {
    if exists x :: CanTake(m, matches, m.sched.queue[0], x, now) then TopStarts(m, m', matches, now)
    else if exists x, spec :: CanTake(m, matches, spec, x, now) then StartsFirst(m, m', matches, now)
    else Idles(m, m', now)
  }

  /** Phases 1 and 2 are safe, and work-conserving for single jobs. */
  lemma WorkConserving(m: Master, matches: Matcher, now: int)
    requires Core(m)
    ensures Core(SinglePhase(m, matches, now))
    ensures !SingleOnTop(m) ==> SinglePhase(m, matches, now) == m
    ensures SingleOnTop(m) ==> Conserves(m, SinglePhase(m, matches, now), matches, now)
  {
    if m.sched.queue != [] {
      PositionTakesJob(m.sched.jobs, m.sched.queue, 0);
      if SingleOnTop(m) {
        var spec := m.sched.queue[0];
        var fit := FirstFit(m.breaker, m.ledger, matches, {}, spec, m.members, now);
        if fit.found.Some? {
          TopFit(m, matches, now);
        } else {
          NoTopFit(m, matches, now);
        }
      }
    }
  }

  /** If the search finds no member for the top job, backfilling decides. */
  lemma NoTopFit(m: Master, matches: Matcher, now: int)
    requires Core(m) && SingleOnTop(m)
    requires m.sched.queue[0].id in m.sched.jobs && m.sched.jobs[m.sched.queue[0].id].spec == m.sched.queue[0]
    requires FirstFit(m.breaker, m.ledger, matches, {}, m.sched.queue[0], m.members, now).found.None?
    ensures Core(SinglePhase(m, matches, now))
    ensures Conserves(m, SinglePhase(m, matches, now), matches, now)
  {
    var spec := m.sched.queue[0];
    var fit := FirstFit(m.breaker, m.ledger, matches, {}, spec, m.members, now);
    FillOnly(m, matches, now);
    hide SinglePhase, FirstFit, FillPhase, Core, Takes, StartsOne, StartsFirst, SameAnswers;
    var _ := FirstFitCorrect(m.breaker, m.ledger, matches, {}, spec, m.members, now);
    var asked := m.(breaker := fit.breaker);
    FillCorrect(asked, 0, matches, now);
    assert m.members[0..] == m.members;
    OutcomeAfterQuery(m, asked, SinglePhase(m, matches, now), matches, now);
    assert !exists x :: CanTake(m, matches, spec, x, now);
    OutcomeConserves(m, SinglePhase(m, matches, now), matches, now);
  }

  lemma OutcomeConserves(m: Master, m': Master, matches: Matcher, now: int)
    requires SingleOnTop(m) && FillOutcome(m, m', matches, now)
    requires !exists x :: CanTake(m, matches, m.sched.queue[0], x, now)
    ensures Conserves(m, m', matches, now)
  {
    if StartsFirst(m, m', matches, now) {
      FirstIsSome(m, m', matches, now);
    }
  }

  lemma FirstIsSome(m: Master, m': Master, matches: Matcher, now: int)
    requires StartsFirst(m, m', matches, now)
    ensures exists x, spec :: CanTake(m, matches, spec, x, now)
    ensures StartsSome(m, m', matches, now)
  {
    var k: nat, p: nat :| StartsAt(m, m', matches, now, k, p);
    assert CanTake(m, matches, m.sched.queue[p], m.members[k], now);
  }

  lemma FillOnly(m: Master, matches: Matcher, now: int)
    requires SingleOnTop(m)
    requires m.sched.queue[0].id in m.sched.jobs && m.sched.jobs[m.sched.queue[0].id].spec == m.sched.queue[0]
    ensures var fit := FirstFit(m.breaker, m.ledger, matches, {}, m.sched.queue[0], m.members, now);
            fit.found.None?
            ==> SinglePhase(m, matches, now) == FillPhase(m.(breaker := fit.breaker), m.members, matches, now)
  {
  }

  /** What phase 1 does when the search finds a member. */
  lemma TopPhase(m: Master, matches: Matcher, now: int)
    requires SingleOnTop(m)
    requires m.sched.queue[0].id in m.sched.jobs && m.sched.jobs[m.sched.queue[0].id].spec == m.sched.queue[0]
    ensures var spec := m.sched.queue[0];
            var fit := FirstFit(m.breaker, m.ledger, matches, {}, spec, m.members, now);
            var popped := m.(breaker := fit.breaker, sched := m.sched.(queue := Popped(m.sched.queue)));
            fit.found.Some? ==> SinglePhase(m, matches, now) == Dispatch(popped, spec, spec.env,
                  fit.found.value.name, now)
  {
  }

  /** The member that the search finds for the top job. */
  lemma TopFound(m: Master, matches: Matcher, now: int) returns (k: nat)
    requires SingleOnTop(m)
    requires FirstFit(m.breaker, m.ledger, matches, {}, m.sched.queue[0], m.members, now).found.Some?
    ensures k < |m.members| && CanTake(m, matches, m.sched.queue[0], m.members[k], now)
    ensures CanDispatch(m.ledger, m.members[k], m.sched.queue[0].need)
    ensures forall j | 0 <= j < k :: !CanTake(m, matches, m.sched.queue[0], m.members[j], now)
    ensures FirstFit(m.breaker, m.ledger, matches, {}, m.sched.queue[0], m.members, now).found.value == m.members[k]
  {
    k := FirstFitCorrect(m.breaker, m.ledger, matches, {}, m.sched.queue[0], m.members, now);
    hide FirstFit;
  }

  /** If the search finds a member, the top job starts there. */
  lemma TopFit(m: Master, matches: Matcher, now: int)
    requires Core(m) && SingleOnTop(m)
    requires m.sched.queue[0].id in m.sched.jobs && m.sched.jobs[m.sched.queue[0].id].spec == m.sched.queue[0]
    requires FirstFit(m.breaker, m.ledger, matches, {}, m.sched.queue[0], m.members, now).found.Some?
    ensures TopStarts(m, SinglePhase(m, matches, now), matches, now) && Core(SinglePhase(m, matches, now))
    ensures exists x :: CanTake(m, matches, m.sched.queue[0], x, now)
  {
    var spec := m.sched.queue[0];
    var fit := FirstFit(m.breaker, m.ledger, matches, {}, spec, m.members, now);
    TopPhase(m, matches, now);
    PopIsRemoveAtZero(m.sched.queue);
    hide Core, FirstFit, SinglePhase, Popped, Removed, CanTake, CanDispatch, SameAnswers, TopStarts, StartsOne,
         Dispatch;
    var k := TopFound(m, matches, now);
    StartOne(m, m.(breaker := fit.breaker, sched := m.sched.(queue := Popped(m.sched.queue))), 0, m.members[k], now);
    AtIsStarts(m, SinglePhase(m, matches, now), matches, now, k);
  }

  lemma AtIsStarts(m: Master, m': Master, matches: Matcher, now: int, k: nat)
    requires SingleOnTop(m) && k < |m.members| && CanTake(m, matches, m.sched.queue[0], m.members[k], now)
    requires forall j | 0 <= j < k :: !CanTake(m, matches, m.sched.queue[0], m.members[j], now)
    requires StartsOne(m, m', m.sched.queue[0], m.members[k], now)
    ensures TopStarts(m, m', matches, now)
  {
    assert TopStartsAt(m, m', matches, now, k);
  }

  /** The top job has the smallest priority number of all queued jobs, and was the
      first submitted of those. */
  lemma TopIsMinimal(m: Master, spec: JobSpec)
    requires Core(m) && spec in m.sched.queue
    ensures !Less(spec, m.sched.queue[0])
    ensures m.sched.queue[0].priority <= spec.priority
    ensures m.sched.queue[0].priority == spec.priority ==> m.sched.queue[0].submitTime <= spec.submitTime
  {
    var k :| 0 <= k < |m.sched.queue| && m.sched.queue[k] == spec;
    RootIsMinimal(m.sched.queue, k);
  }

  lemma StartKeepsRanks(m: Master, m': Master, spec: JobSpec, x: Member, now: int)
    requires RanksOk(m.sched) && StartsOne(m, m', spec, x, now) && spec.groupId == ""
    ensures RanksOk(m'.sched)
  {
  }

  lemma ConservesIsQuiet(m: Master, m': Master, matches: Matcher, now: int)
    requires SingleOnTop(m) && Conserves(m, m', matches, now)
    ensures Idles(m, m', now) || StartsSome(m, m', matches, now)
  {
    if TopStarts(m, m', matches, now) {
      var k: nat :| TopStartsAt(m, m', matches, now, k);
      assert StartsSome(m, m', matches, now);
    } else if StartsFirst(m, m', matches, now) {
      FirstIsSome(m, m', matches, now);
    }
  }

  /** Single dispatches never touch ranks. */
  lemma SinglePhaseOk(m: Master, matches: Matcher, now: int)
    requires Core(m) && RanksOk(m.sched)
    ensures RanksOk(SinglePhase(m, matches, now).sched)
  {
    WorkConserving(m, matches, now);
    var m' := SinglePhase(m, matches, now);
    if SingleOnTop(m) {
      ConservesIsQuiet(m, m', matches, now);
      if StartsSome(m, m', matches, now) {
        var x, spec :| CanTake(m, matches, spec, x, now) && StartsOne(m, m', spec, x, now);
        StartKeepsRanks(m, m', spec, x, now);
      }
    }
  }
}
