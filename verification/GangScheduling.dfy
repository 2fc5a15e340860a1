/** Gang scheduling: first fit over distinct members finds an assignment exactly
    when one exists, and dispatching it is all or nothing. */
module GangScheduling {
  import opened Types
  import opened Scheduling
  import opened Ledger
  import opened CircuitBreaker
  import opened MasterSteps
  import opened Placement
  import opened CoreSteps

  // ---------- searching ----------

  /** The breaker may have forgotten expired blocks, but answers alike. */
  ghost predicate SameAnswers(b: Breaker, b': Breaker, now: int) {
    forall node :: Blocks(b', node, now) <==> Blocks(b, node, now)
  }

  /** What it means that a member can take a job now: it advertises something, it
      satisfies the requirement, no block is in force, and of everything that the job
      demands the node has that much left. */
  predicate Takes(b: Breaker, l: Ledger, matches: Matcher, spec: JobSpec, x: Member, now: int) {
    && x.hasMeta
    && matches(spec.requirement, x)
    && (x.name in b.blocked ==> b.blocked[x.name] < now)
    && (spec.need.gpus > 0 ==> Get(l.gpus, x.name) + spec.need.gpus <= x.total.gpus && spec.need.gpus <= x.total.gpus)
    && (spec.need.cpus > 0 ==> Get(l.cpus, x.name) + spec.need.cpus <= x.total.cpus && spec.need.cpus <= x.total.cpus)
    && (spec.need.mem > 0 ==> Get(l.mem, x.name) + spec.need.mem <= x.total.mem && spec.need.mem <= x.total.mem)
  }

  /** Member k is the first unused one that can take the job. */
  ghost predicate FirstTaker(b: Breaker, l: Ledger, matches: Matcher, used: set<string>, spec: JobSpec,
                             members: seq<Member>, now: int, k: nat)
  {
    && k < |members| && members[k].name !in used && Takes(b, l, matches, spec, members[k], now)
    && (forall j | 0 <= j < k :: members[j].name in used || !Takes(b, l, matches, spec, members[j], now))
  }

  lemma EligibleTakes(b: Breaker, l: Ledger, matches: Matcher, spec: JobSpec, x: Member, now: int)
    ensures Eligible(b, l, matches, spec, x, now) <==> Takes(b, l, matches, spec, x, now)
  {
  }

  /** The search takes the first member or goes on with the others. */
  lemma SearchHead(b: Breaker, l: Ledger, matches: Matcher, used: set<string>, spec: JobSpec, members: seq<Member>,
                   now: int) returns (b': Breaker)
    requires members != []
    ensures SameAnswers(b, b', now)
    ensures var r := FirstFit(b, l, matches, used, spec, members, now);
            if members[0].name !in used && Takes(b, l, matches, spec, members[0], now)
            then r == Search(b', Some(members[0]))
            else r == FirstFit(b', l, matches, used, spec, members[1..], now)
  {
    EligibleTakes(b, l, matches, spec, members[0], now);
    b' := b;
    if members[0].name !in used && members[0].hasMeta {
      b' := Queried(b, members[0].name, now);
      QuerySameAnswers(b, members[0].name, now);
    }
    hide Takes, Eligible, Queried, SameAnswers;
  }

  lemma FirstTakerNext(b: Breaker, b': Breaker, l: Ledger, matches: Matcher, used: set<string>, spec: JobSpec,
                       members: seq<Member>, now: int, k: nat)
    requires members != [] && SameAnswers(b, b', now)
    requires members[0].name in used || !Takes(b, l, matches, spec, members[0], now)
    requires FirstTaker(b', l, matches, used, spec, members[1..], now, k)
    ensures FirstTaker(b, l, matches, used, spec, members, now, k + 1)
  {
    forall j | 0 <= j < |members|
      ensures Takes(b, l, matches, spec, members[j], now) <==> Takes(b', l, matches, spec, members[j], now)
    {
      TakesAlike(b, b', l, matches, spec, members[j], now);
    }
    hide Takes;
    forall j | 0 <= j < k + 1
      ensures members[j].name in used || !Takes(b, l, matches, spec, members[j], now)
    {
      assert j > 0 ==> members[j] == members[1..][j - 1];
    }
  }

  lemma NoTakerNext(b: Breaker, b': Breaker, l: Ledger, matches: Matcher, used: set<string>, spec: JobSpec,
                    members: seq<Member>, now: int)
    requires members != [] && SameAnswers(b, b', now)
    requires members[0].name in used || !Takes(b, l, matches, spec, members[0], now)
    requires forall x | x in members[1..] :: x.name in used || !Takes(b', l, matches, spec, x, now)
    ensures forall x | x in members :: x.name in used || !Takes(b, l, matches, spec, x, now)
  {
    forall x | x in members ensures x.name in used || !Takes(b, l, matches, spec, x, now) {
      TakesAlike(b, b', l, matches, spec, x, now);
    }
  }

  /** The search finds the first unused member that can take the job, and if it
      finds none there is none. */
  lemma {:induction false} FirstFitCorrect(b: Breaker, l: Ledger, matches: Matcher, used: set<string>, spec: JobSpec,
                                           members: seq<Member>, now: int) returns (k: nat)
    ensures var r := FirstFit(b, l, matches, used, spec, members, now);
            && SameAnswers(b, r.breaker, now)
            && (r.found.Some? ==> FirstTaker(b, l, matches, used, spec, members, now, k) && r.found.value == members[k])
            && (r.found.None? ==> forall x | x in members :: x.name in used || !Takes(b, l, matches, spec, x, now))
    decreases |members|
  {
    k := 0;
    if members != [] {
      hide Takes, Eligible;
      var b' := SearchHead(b, l, matches, used, spec, members, now);
      hide FirstFit, Blocks;
      if members[0].name in used || !Takes(b, l, matches, spec, members[0], now) {
        k := FirstFitCorrect(b', l, matches, used, spec, members[1..], now);
        if FirstFit(b, l, matches, used, spec, members, now).found.Some? {
          FirstTakerNext(b, b', l, matches, used, spec, members, now, k);
          k := k + 1;
        } else {
          NoTakerNext(b, b', l, matches, used, spec, members, now);
        }
      }
    }
  }

  lemma QuerySameAnswers(b: Breaker, node: string, now: int)
    ensures SameAnswers(b, Queried(b, node, now), now)
  {
    forall other ensures Blocks(Queried(b, node, now), other, now) <==> Blocks(b, other, now) {
      QueryKeepsAnswers(b, node, now, other);
    }
  }

  /** Whether a member can take a job depends on the answers of the breaker only. */
  lemma TakesAlike(b: Breaker, b': Breaker, l: Ledger, matches: Matcher, spec: JobSpec, x: Member, now: int)
    requires SameAnswers(b, b', now)
    ensures Takes(b, l, matches, spec, x, now) <==> Takes(b', l, matches, spec, x, now)
  {
    assert Blocks(b', x.name, now) <==> Blocks(b, x.name, now);
  }

  /** An assignment of distinct members that can take them to the ranks. */
  ghost predicate Assigns(b: Breaker, l: Ledger, matches: Matcher, ranks: seq<JobRec>, members: seq<Member>, now: int,
                          nodes: seq<Member>)
  {
    && |nodes| == |ranks|
    && (forall i | 0 <= i < |nodes| :: nodes[i] in members && Takes(b, l, matches, ranks[i].spec, nodes[i], now))
    && (forall i, j | 0 <= i < j < |nodes| :: nodes[i].name != nodes[j].name)
  }

  ghost predicate Avoids(nodes: seq<Member>, used: set<string>) {
    forall i | 0 <= i < |nodes| :: nodes[i].name !in used
  }

  /** What greedy matching returns is an assignment. */
  lemma {:induction false} MatchSound(b: Breaker, l: Ledger, matches: Matcher, used: set<string>, ranks: seq<JobRec>,
                                      members: seq<Member>, now: int)
    ensures var r := MatchRanks(b, l, matches, used, ranks, members, now);
            && SameAnswers(b, r.breaker, now)
            && (r.found.Some? ==> Assigns(b, l, matches, ranks, members, now, r.found.value)
                                  && Avoids(r.found.value, used))
    decreases |ranks|
  {
    if ranks != [] {
      var fit := FirstFit(b, l, matches, used, ranks[0].spec, members, now);
      var _ := FirstFitCorrect(b, l, matches, used, ranks[0].spec, members, now);
      if fit.found.Some? {
        var used' := used + {fit.found.value.name};
        MatchSound(fit.breaker, l, matches, used', ranks[1..], members, now);
        var rest := MatchRanks(fit.breaker, l, matches, used', ranks[1..], members, now);
        if rest.found.Some? {
          ConsAssigns(b, fit.breaker, l, matches, ranks, members, now, fit.found.value, rest.found.value);
        }
      }
    }
  }

  lemma ConsAssigns(b: Breaker, b': Breaker, l: Ledger, matches: Matcher, ranks: seq<JobRec>, members: seq<Member>,
                    now: int, first: Member, rest: seq<Member>)
    requires ranks != [] && SameAnswers(b, b', now)
    requires first in members && Takes(b, l, matches, ranks[0].spec, first, now)
    requires Assigns(b', l, matches, ranks[1..], members, now, rest) && Avoids(rest, {first.name})
    ensures Assigns(b, l, matches, ranks, members, now, [first] + rest)
  {
    var nodes := [first] + rest;
    forall i | 0 <= i < |nodes|
      ensures nodes[i] in members && Takes(b, l, matches, ranks[i].spec, nodes[i], now)
    {
      if i > 0 {
        assert nodes[i] == rest[i - 1] && ranks[i] == ranks[1..][i - 1];
        TakesAlike(b, b', l, matches, ranks[i].spec, nodes[i], now);
      }
    }
    forall i, j | 0 <= i < j < |nodes| ensures nodes[i].name != nodes[j].name {
      assert nodes[j] == rest[j - 1];
    }
  }

  ghost function NamesOf(nodes: seq<Member>): set<string> {
    set x | x in nodes :: x.name
  }

  lemma NamesOfCons(first: Member, rest: seq<Member>)
    ensures NamesOf([first] + rest) == {first.name} + NamesOf(rest)
  {
    assert forall x | x in rest :: x in [first] + rest;
  }

  /** Each rank goes to the first member that can take it and that no rank before it
      was given. */
  ghost predicate Greedy(b: Breaker, l: Ledger, matches: Matcher, ranks: seq<JobRec>, members: seq<Member>, now: int,
                         nodes: seq<Member>)
    requires |nodes| == |ranks|
  {
    forall i | 0 <= i < |nodes| ::
      exists k: nat | k < |members| && nodes[i] == members[k] ::
        FirstTaker(b, l, matches, NamesOf(nodes[..i]), ranks[i].spec, members, now, k)
  }

  lemma MatchIsGreedy(b: Breaker, l: Ledger, matches: Matcher, ranks: seq<JobRec>, members: seq<Member>, now: int)
    requires MatchRanks(b, l, matches, {}, ranks, members, now).found.Some?
    ensures var nodes := MatchRanks(b, l, matches, {}, ranks, members, now).found.value;
            |nodes| == |ranks| && Greedy(b, l, matches, ranks, members, now, nodes)
  {
    var nodes := MatchRanks(b, l, matches, {}, ranks, members, now).found.value;
    MatchRanksLength(b, l, matches, {}, ranks, members, now);
    hide MatchRanks, FirstTaker;
    forall i | 0 <= i < |nodes|
      ensures exists k: nat | k < |members| && nodes[i] == members[k] ::
          FirstTaker(b, l, matches, NamesOf(nodes[..i]), ranks[i].spec, members, now, k)
    {
      var k := MatchGreedy(b, l, matches, {}, ranks, members, now, i);
      assert {} + NamesOf(nodes[..i]) == NamesOf(nodes[..i]);
    }
  }

  lemma {:induction false} MatchGreedy(b: Breaker, l: Ledger, matches: Matcher, used: set<string>, ranks: seq<JobRec>,
                                       members: seq<Member>, now: int, i: nat) returns (k: nat)
    requires MatchRanks(b, l, matches, used, ranks, members, now).found.Some? && i < |ranks|
    ensures var nodes := MatchRanks(b, l, matches, used, ranks, members, now).found.value;
            && |nodes| == |ranks|
            && k < |members| && nodes[i] == members[k]
            && FirstTaker(b, l, matches, used + NamesOf(nodes[..i]), ranks[i].spec, members, now, k)
    decreases |ranks|
  {
    var nodes := MatchRanks(b, l, matches, used, ranks, members, now).found.value;
    MatchRanksLength(b, l, matches, used, ranks, members, now);
    var fit := FirstFit(b, l, matches, used, ranks[0].spec, members, now);
    k := FirstFitCorrect(b, l, matches, used, ranks[0].spec, members, now);
    assert nodes[0] == fit.found.value && k < |members|;
    hide FirstFit, FirstTaker, SameAnswers;
    if i == 0 {
      assert used + NamesOf(nodes[..0]) == used;
    } else {
      var first, rest := nodes[0], nodes[1..];
      assert MatchRanks(fit.breaker, l, matches, used + {first.name}, ranks[1..], members, now).found.value == rest;
      k := MatchGreedy(fit.breaker, l, matches, used + {first.name}, ranks[1..], members, now, i - 1);
      assert k < |members| && nodes[i] == members[k];
      assert nodes[..i] == [first] + rest[..i - 1];
      NamesOfCons(first, rest[..i - 1]);
      assert used + {first.name} + NamesOf(rest[..i - 1]) == used + NamesOf(nodes[..i]);
      FirstTakerAlike(b, fit.breaker, l, matches, used + NamesOf(nodes[..i]), ranks[i].spec, members, now, k);
    }
  }

  lemma FirstTakerAlike(b: Breaker, b': Breaker, l: Ledger, matches: Matcher, used: set<string>, spec: JobSpec,
                        members: seq<Member>, now: int, k: nat)
    requires SameAnswers(b, b', now) && FirstTaker(b', l, matches, used, spec, members, now, k)
    ensures FirstTaker(b, l, matches, used, spec, members, now, k)
  {
    forall j | 0 <= j < |members|
      ensures Takes(b, l, matches, spec, members[j], now) <==> Takes(b', l, matches, spec, members[j], now)
    {
      TakesAlike(b, b', l, matches, spec, members[j], now);
    }
    hide Takes;
  }

  /** All ranks of a gang ask for the same thing. */
  ghost predicate Uniform(ranks: seq<JobRec>, spec: JobSpec) {
    forall r | r in ranks :: r.spec.need == spec.need && r.spec.requirement == spec.requirement
  }

  ghost function Candidates(b: Breaker, l: Ledger, matches: Matcher, spec: JobSpec, members: seq<Member>,
        now: int): set<string> {
    set x | x in members && Takes(b, l, matches, spec, x, now) :: x.name
  }

  lemma EligibleAlike(b: Breaker, b': Breaker, l: Ledger, matches: Matcher, spec: JobSpec, spec': JobSpec,
                      members: seq<Member>, now: int)
    requires SameAnswers(b, b', now) && spec.need == spec'.need && spec.requirement == spec'.requirement
    ensures Candidates(b, l, matches, spec, members, now) == Candidates(b', l, matches, spec', members, now)
  {
    forall x | x in members
      ensures Takes(b, l, matches, spec, x, now) <==> Takes(b', l, matches, spec', x, now)
    {
      TakesAlike(b, b', l, matches, spec, x, now);
    }
  }

  /** Greedy matching succeeds iff enough distinct unused candidates exist. */
  lemma {:induction false} MatchCounts(b: Breaker, l: Ledger, matches: Matcher, used: set<string>, ranks: seq<JobRec>,
                                       members: seq<Member>, now: int, spec: JobSpec)
    requires Uniform(ranks, spec)
    ensures MatchRanks(b, l, matches, used, ranks, members, now).found.Some?
        <==> |Candidates(b, l, matches, spec, members, now) - used| >= |ranks|
    decreases |ranks|
  {
    if ranks != [] {
      var pool := Candidates(b, l, matches, spec, members, now);
      var fit := FirstFit(b, l, matches, used, ranks[0].spec, members, now);
      assert ranks[0] in ranks;
      EligibleAlike(b, b, l, matches, spec, ranks[0].spec, members, now);
      FitInPool(b, l, matches, used, ranks[0].spec, members, now);
      hide FirstFit, SameAnswers, Candidates;
      if fit.found.Some? {
        var name := fit.found.value.name;
        assert pool - (used + {name}) == (pool - used) - {name};
        EligibleAlike(b, fit.breaker, l, matches, spec, spec, members, now);
        MatchCounts(fit.breaker, l, matches, used + {name}, ranks[1..], members, now, spec);
      }
    }
  }

  /** The search finds one of the unused candidates, if there are any. */
  lemma FitInPool(b: Breaker, l: Ledger, matches: Matcher, used: set<string>, spec: JobSpec, members: seq<Member>,
                  now: int)
    ensures var fit := FirstFit(b, l, matches, used, spec, members, now);
            var pool := Candidates(b, l, matches, spec, members, now);
            && SameAnswers(b, fit.breaker, now)
            && if fit.found.Some? then fit.found.value.name in pool - used else pool - used == {}
  {
    var _ := FirstFitCorrect(b, l, matches, used, spec, members, now);
    hide FirstFit, Takes;
  }

  lemma {:induction false} DistinctNamesCount(nodes: seq<Member>) returns (names: set<string>)
    requires forall i, j | 0 <= i < j < |nodes| :: nodes[i].name != nodes[j].name
    ensures |names| == |nodes|
    ensures forall n :: n in names <==> exists i :: 0 <= i < |nodes| && nodes[i].name == n
  {
    if nodes == [] {
      names := {};
    } else {
      var before := DistinctNamesCount(nodes[..|nodes| - 1]);
      names := before + {nodes[|nodes| - 1].name};
      forall n ensures n in names <==> exists i :: 0 <= i < |nodes| && nodes[i].name == n {
        if exists i :: 0 <= i < |nodes| && nodes[i].name == n {
          var i :| 0 <= i < |nodes| && nodes[i].name == n;
          assert i < |nodes| - 1 ==> nodes[..|nodes| - 1][i].name == n;
        }
      }
    }
  }

  /** First fit is complete: it finds an assignment iff any injective assignment
      of eligible members to ranks exists. */
  lemma GreedyComplete(b: Breaker, l: Ledger, matches: Matcher, ranks: seq<JobRec>, members: seq<Member>, now: int,
                       spec: JobSpec)
    requires Uniform(ranks, spec)
    ensures MatchRanks(b, l, matches, {}, ranks, members, now).found.Some?
        <==> exists nodes :: Assigns(b, l, matches, ranks, members, now, nodes)
    ensures MatchRanks(b, l, matches, {}, ranks, members, now).found.Some?
        <==> |Candidates(b, l, matches, spec, members, now)| >= |ranks|
  {
    var pool := Candidates(b, l, matches, spec, members, now);
    assert pool - {} == pool;
    MatchCounts(b, l, matches, {}, ranks, members, now, spec);
    MatchSound(b, l, matches, {}, ranks, members, now);
    if exists nodes :: Assigns(b, l, matches, ranks, members, now, nodes) {
      var nodes :| Assigns(b, l, matches, ranks, members, now, nodes);
      AssignmentNeedsCandidates(b, l, matches, ranks, members, now, spec, nodes);
    }
  }

  lemma AssignmentNeedsCandidates(b: Breaker, l: Ledger, matches: Matcher, ranks: seq<JobRec>, members: seq<Member>,
                                  now: int, spec: JobSpec, nodes: seq<Member>)
    requires Uniform(ranks, spec) && Assigns(b, l, matches, ranks, members, now, nodes)
    ensures |Candidates(b, l, matches, spec, members, now)| >= |ranks|
  {
    var pool := Candidates(b, l, matches, spec, members, now);
    var names := DistinctNamesCount(nodes);
    forall n | n in names ensures n in pool {
      var i :| 0 <= i < |nodes| && nodes[i].name == n;
      assert ranks[i] in ranks;
      assert Takes(b, l, matches, spec, nodes[i], now);
    }
    SubsetCount(names, pool);
  }

  lemma SubsetCount(a: set<string>, b: set<string>)
    requires a <= b
    ensures |a| <= |b|
  {
    assert b == a + (b - a);
  }

  // ---------- dispatching the assignment ----------

  /** The ranks wait in the heap and the nodes can take them. */
  ghost predicate CanStart(m: Master, ranks: seq<JobRec>, nodes: seq<Member>) {
    && |ranks| == |nodes|
    && DistinctJobs(ranks)
    && (forall r | r in ranks :: InState(m.sched, r.spec.id, Queued) && m.sched.jobs[r.spec.id] == r)
    && (forall i | 0 <= i < |nodes| :: nodes[i] in m.members && CanDispatch(m.ledger, nodes[i], ranks[i].spec.need))
    && (forall i, j | 0 <= i < j < |nodes| :: nodes[i].name != nodes[j].name)
  }

  function Started(rec: JobRec, node: string, now: int): JobRec {
    rec.(state := Running, worker := node, startTime := now)
  }

  /** One turn of the dispatch loop. */
  function Start1(m: Master, rec: JobRec, node: Member, addr: string, now: int): Master {
    Dispatch(m.(sched := RemoveById(m.sched, rec.spec.id)), rec.spec, rec.spec.env["MASTER_ADDR" := addr], node.name,
          now)
  }

  lemma Start1Effect(m: Master, rec: JobRec, node: Member, addr: string, now: int)
    requires InState(m.sched, rec.spec.id, Queued) && m.sched.jobs[rec.spec.id] == rec
    ensures var m' := Start1(m, rec, node, addr, now);
            && m'.sched.jobs == m.sched.jobs[rec.spec.id := Started(rec, node.name, now)]
            && m'.sched.groups == m.sched.groups
            && m'.sched.queue == Without(m.sched.queue, rec.spec.id)
            && m'.ledger == Allocated(m.ledger, node.name, rec.spec.need)
            && m'.members == m.members
  {
  }

  lemma Start1Core(m: Master, rec: JobRec, node: Member, addr: string, now: int)
    requires Core(m) && InState(m.sched, rec.spec.id, Queued) && m.sched.jobs[rec.spec.id] == rec
    requires node in m.members && CanDispatch(m.ledger, node, rec.spec.need)
    ensures Core(Start1(m, rec, node, addr, now))
  {
    WithoutTakesJob(m.sched.jobs, m.sched.queue, rec.spec.id);
    StartCore(m, m.(sched := RemoveById(m.sched, rec.spec.id)), rec.spec.id, rec.spec.env["MASTER_ADDR" := addr],
          node, now);
  }

  lemma Start1CanStart(m: Master, ranks: seq<JobRec>, nodes: seq<Member>, addr: string, now: int)
    requires ranks != [] && CanStart(m, ranks, nodes)
    ensures CanStart(Start1(m, ranks[0], nodes[0], addr, now), ranks[1..], nodes[1..])
  {
    assert ranks[0] in ranks;
    Start1Effect(m, ranks[0], nodes[0], addr, now);
    var m' := Start1(m, ranks[0], nodes[0], addr, now);
    forall r | r in ranks[1..] ensures InState(m'.sched, r.spec.id, Queued) && m'.sched.jobs[r.spec.id] == r {
      assert r in ranks;
    }
    forall i | 0 <= i < |nodes[1..]|
      ensures nodes[1..][i] in m'.members && CanDispatch(m'.ledger, nodes[1..][i], ranks[1..][i].spec.need)
    {
      AllocateAdds(m.ledger, nodes[0].name, ranks[0].spec.need, nodes[i + 1].name);
      assert nodes[0].name != nodes[i + 1].name;
      assert CanDispatch(m.ledger, nodes[i + 1], ranks[i + 1].spec.need);
    }
  }

  /** Every rank starts, each on its own node, and the invariant holds. */
  lemma {:induction false} DispatchRanksCore(m: Master, ranks: seq<JobRec>, nodes: seq<Member>, addr: string, now: int)
    requires Core(m) && CanStart(m, ranks, nodes)
    ensures Core(DispatchRanks(m, ranks, nodes, addr, now))
    decreases |ranks|
  {
    if ranks != [] {
      assert ranks[0] in ranks;
      Start1Core(m, ranks[0], nodes[0], addr, now);
      Start1CanStart(m, ranks, nodes, addr, now);
      DispatchRanksCore(Start1(m, ranks[0], nodes[0], addr, now), ranks[1..], nodes[1..], addr, now);
    }
  }
}
