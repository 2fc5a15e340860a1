/** What one attempt to dispatch a pending group does: everything or nothing, and
    which; and what the ranks are told about each other. */
module GangOutcome {
  import opened Devices
  import opened Types
  import opened Scheduling
  import opened Ledger
  import opened MasterSteps
  import opened Placement
  import opened GangScheduling
  import opened Continuity
  import opened ContinuitySteps
  import opened Groups
  import opened DispatchTick
  import opened Submission
  import opened Events

  // ---------- the dispatch loop, component by component ----------

  function RankSpecs(ranks: seq<JobRec>): (r: seq<JobSpec>)
    ensures |r| == |ranks|
  {
    seq(|ranks|, i requires 0 <= i < |ranks| => ranks[i].spec)
  }

  /** What rank i's worker is sent. */
  function RankPayload(members: seq<Member>, rank: JobRec, node: Member, addr: string): Payload {
    Order(members, rank.spec, rank.spec.env["MASTER_ADDR" := addr], node.name)
  }

  function Payloads(members: seq<Member>, ranks: seq<JobRec>, nodes: seq<Member>, addr: string): (r: seq<Payload>)
    requires |ranks| == |nodes|
    ensures |r| == |ranks|
  {
    seq(|ranks|, i requires 0 <= i < |ranks| => RankPayload(members, ranks[i], nodes[i], addr))
  }

  /** Rank i runs on node i and is on the handshake list. */
  ghost predicate RankRuns(m': Master, rank: JobRec, node: Member, now: int) {
    && rank.spec.id in m'.sched.jobs && m'.sched.jobs[rank.spec.id] == Started(rank, node.name, now)
    && rank.spec.id in m'.pending && m'.pending[rank.spec.id] == now
  }

  ghost predicate NoRank(ranks: seq<JobRec>, id: string) {
    forall i | 0 <= i < |ranks| :: ranks[i].spec.id != id
  }

  /** Only ranks changed. */
  ghost predicate OthersKept(m: Master, m': Master, ranks: seq<JobRec>) {
    && m'.sched.jobs.Keys == m.sched.jobs.Keys
    && (forall id | id in m.sched.jobs && NoRank(ranks, id) :: m'.sched.jobs[id] == m.sched.jobs[id])
    && (forall id | id in m.pending && NoRank(ranks, id) :: id in m'.pending && m'.pending[id] == m.pending[id])
    && (forall id | id in m'.pending && NoRank(ranks, id) :: id in m.pending)
  }

  lemma Start1Runs(m: Master, rec: JobRec, node: Member, addr: string, now: int)
    requires InState(m.sched, rec.spec.id, Queued) && m.sched.jobs[rec.spec.id] == rec
    ensures RankRuns(Start1(m, rec, node, addr, now), rec, node, now)
    ensures OthersKept(m, Start1(m, rec, node, addr, now), [rec])
    ensures Start1(m, rec, node, addr, now).sent == m.sent + [RankPayload(m.members, rec, node, addr)]
    ensures Start1(m, rec, node, addr, now).members == m.members
  {
    assert forall id | NoRank([rec], id) :: [rec][0].spec.id != id;
  }

  lemma OthersChain(m: Master, next: Master, m': Master, ranks: seq<JobRec>)
    requires ranks != [] && OthersKept(m, next, ranks[..1]) && OthersKept(next, m', ranks[1..])
    ensures OthersKept(m, m', ranks)
  {
    forall id | NoRank(ranks, id) ensures NoRank(ranks[..1], id) && NoRank(ranks[1..], id) {
    }
  }

  lemma StillRuns(next: Master, m': Master, rank: JobRec, node: Member, now: int, others: seq<JobRec>)
    requires RankRuns(next, rank, node, now) && OthersKept(next, m', others) && NoRank(others, rank.spec.id)
    ensures RankRuns(m', rank, node, now)
  {
  }

  /** The loop changes nobody but the ranks. */
  lemma {:induction false} LoopKeepsOthers(m: Master, ranks: seq<JobRec>, nodes: seq<Member>, addr: string, now: int)
    requires |ranks| == |nodes| && Waiting(m.sched, ranks)
    ensures OthersKept(m, DispatchRanks(m, ranks, nodes, addr, now), ranks)
    decreases |ranks|
  {
    if ranks != [] {
      assert ranks[0] in ranks;
      var next := Start1(m, ranks[0], nodes[0], addr, now);
      Start1Runs(m, ranks[0], nodes[0], addr, now);
      WaitingTail(m, ranks, nodes[0], addr, now);
      LoopKeepsOthers(next, ranks[1..], nodes[1..], addr, now);
      assert ranks[..1] == [ranks[0]];
      OthersChain(m, next, DispatchRanks(m, ranks, nodes, addr, now), ranks);
    }
  }

  /** The loop starts every rank on its node. */
  lemma {:induction false} LoopRuns(m: Master, ranks: seq<JobRec>, nodes: seq<Member>, addr: string, now: int, i: nat)
    requires |ranks| == |nodes| && Waiting(m.sched, ranks) && i < |ranks|
    ensures RankRuns(DispatchRanks(m, ranks, nodes, addr, now), ranks[i], nodes[i], now)
    decreases |ranks|
  {
    assert ranks[0] in ranks;
    var next := Start1(m, ranks[0], nodes[0], addr, now);
    WaitingTail(m, ranks, nodes[0], addr, now);
    if i == 0 {
      Start1Runs(m, ranks[0], nodes[0], addr, now);
      LoopKeepsOthers(next, ranks[1..], nodes[1..], addr, now);
      assert NoRank(ranks[1..], ranks[0].spec.id);
      StillRuns(next, DispatchRanks(m, ranks, nodes, addr, now), ranks[0], nodes[0], now, ranks[1..]);
    } else {
      LoopRuns(next, ranks[1..], nodes[1..], addr, now, i - 1);
    }
  }

  lemma PayloadsCons(members: seq<Member>, ranks: seq<JobRec>, nodes: seq<Member>, addr: string)
    requires |ranks| == |nodes| && ranks != []
    ensures Payloads(members, ranks, nodes, addr)
         == [RankPayload(members, ranks[0], nodes[0], addr)] + Payloads(members, ranks[1..], nodes[1..], addr)
  {
  }

  lemma SentJoins(sent: seq<Payload>, p: Payload, rest: seq<Payload>)
    ensures sent + [p] + rest == sent + ([p] + rest)
  {
  }

  /** The loop publishes one payload per rank, in rank order. */
  lemma {:induction false} LoopSends(m: Master, ranks: seq<JobRec>, nodes: seq<Member>, addr: string, now: int)
    requires |ranks| == |nodes| && Waiting(m.sched, ranks)
    ensures DispatchRanks(m, ranks, nodes, addr, now).sent == m.sent + Payloads(m.members, ranks, nodes, addr)
    decreases |ranks|
  {
    if ranks != [] {
      assert ranks[0] in ranks;
      Start1Runs(m, ranks[0], nodes[0], addr, now);
      WaitingTail(m, ranks, nodes[0], addr, now);
      LoopSends(Start1(m, ranks[0], nodes[0], addr, now), ranks[1..], nodes[1..], addr, now);
      PayloadsCons(m.members, ranks, nodes, addr);
      SentJoins(m.sent, RankPayload(m.members, ranks[0], nodes[0], addr),
                Payloads(m.members, ranks[1..], nodes[1..], addr));
    }
  }

  lemma SpecsCons(ranks: seq<JobRec>)
    requires ranks != []
    ensures multiset(RankSpecs(ranks)) == multiset{ranks[0].spec} + multiset(RankSpecs(ranks[1..]))
  {
    assert RankSpecs(ranks) == [ranks[0].spec] + RankSpecs(ranks[1..]);
  }

  lemma Start1Unqueues(m: Master, rec: JobRec, node: Member, addr: string, now: int)
    requires Core(m) && InState(m.sched, rec.spec.id, Queued) && m.sched.jobs[rec.spec.id] == rec
    ensures multiset(Start1(m, rec, node, addr, now).sched.queue) + multiset{rec.spec} == multiset(m.sched.queue)
  {
    Start1Effect(m, rec, node, addr, now);
    WithoutTakesJob(m.sched.jobs, m.sched.queue, rec.spec.id);
    assert multiset(m.sched.queue)[rec.spec] == 1;
  }

  /** Exactly the ranks leave the heap. */
  lemma {:induction false} LoopUnqueues(m: Master, ranks: seq<JobRec>, nodes: seq<Member>, addr: string, now: int)
    requires Core(m) && CanStart(m, ranks, nodes)
    ensures multiset(DispatchRanks(m, ranks, nodes, addr, now).sched.queue) + multiset(RankSpecs(ranks))
         == multiset(m.sched.queue)
    decreases |ranks|
  {
    if ranks == [] {
      assert RankSpecs(ranks) == [];
    } else {
      assert ranks[0] in ranks;
      Start1Core(m, ranks[0], nodes[0], addr, now);
      Start1CanStart(m, ranks, nodes, addr, now);
      Start1Unqueues(m, ranks[0], nodes[0], addr, now);
      LoopUnqueues(Start1(m, ranks[0], nodes[0], addr, now), ranks[1..], nodes[1..], addr, now);
      SpecsCons(ranks);
    }
  }

  ghost predicate NotAmong(nodes: seq<Member>, node: string) {
    forall i | 0 <= i < |nodes| :: nodes[i].name != node
  }

  predicate HoldsMore(l: Ledger, l': Ledger, node: string, need: Res) {
    Held(l', node) == Held(l, node).Plus(need)
  }

  predicate HoldsSame(l: Ledger, l': Ledger, node: string) {
    Held(l', node) == Held(l, node)
  }

  ghost predicate EachHoldsMore(l: Ledger, l': Ledger, ranks: seq<JobRec>, nodes: seq<Member>)
    requires |ranks| == |nodes|
  {
    forall i | 0 <= i < |nodes| :: HoldsMore(l, l', nodes[i].name, ranks[i].spec.need)
  }

  ghost predicate RestHoldSame(l: Ledger, l': Ledger, nodes: seq<Member>) {
    forall node | NotAmong(nodes, node) :: HoldsSame(l, l', node)
  }

  /** Each of the nodes holds one rank's demand more, the others what they held. */
  ghost predicate ChargedOnce(l: Ledger, l': Ledger, ranks: seq<JobRec>, nodes: seq<Member>)
    requires |ranks| == |nodes|
  {
    EachHoldsMore(l, l', ranks, nodes) && RestHoldSame(l, l', nodes)
  }

  /** Every node is charged once, for its rank. */
  lemma {:induction false} LoopCharges(m: Master, ranks: seq<JobRec>, nodes: seq<Member>, addr: string, now: int)
    requires |ranks| == |nodes| && Waiting(m.sched, ranks)
    requires forall i, j | 0 <= i < j < |nodes| :: nodes[i].name != nodes[j].name
    ensures ChargedOnce(m.ledger, DispatchRanks(m, ranks, nodes, addr, now).ledger, ranks, nodes)
    decreases |ranks|
  {
    if ranks != [] {
      assert ranks[0] in ranks;
      var next := Start1(m, ranks[0], nodes[0], addr, now);
      Start1Effect(m, ranks[0], nodes[0], addr, now);
      WaitingTail(m, ranks, nodes[0], addr, now);
      LoopCharges(next, ranks[1..], nodes[1..], addr, now);
      ChargeChain(m.ledger, next.ledger, DispatchRanks(m, ranks, nodes, addr, now).ledger, ranks, nodes);
    }
  }

  /** One charge: the node gains, others stay. */
  ghost predicate Charged(l: Ledger, next: Ledger, name: string, need: Res) {
    forall node :: Held(next, node) == if node == name then Held(l, node).Plus(need) else Held(l, node)
  }

  lemma AllocateCharges(l: Ledger, name: string, need: Res)
    ensures Charged(l, Allocated(l, name, need), name, need)
  {
    forall node
      ensures Held(Allocated(l, name, need), node) == if node == name then Held(l, node).Plus(need) else Held(l, node)
    {
      AllocateAdds(l, name, need, node);
    }
  }

  lemma ChargeChain(l: Ledger, next: Ledger, l': Ledger, ranks: seq<JobRec>, nodes: seq<Member>)
    requires ranks != [] && |ranks| == |nodes|
    requires forall i, j | 0 <= i < j < |nodes| :: nodes[i].name != nodes[j].name
    requires next == Allocated(l, nodes[0].name, ranks[0].spec.need) && ChargedOnce(next, l', ranks[1..], nodes[1..])
    ensures ChargedOnce(l, l', ranks, nodes)
  {
    AllocateCharges(l, nodes[0].name, ranks[0].spec.need);
    ChargeJoins(l, next, l', ranks, nodes);
  }

  lemma ChargeJoinsAt(l: Ledger, next: Ledger, l': Ledger, ranks: seq<JobRec>, nodes: seq<Member>, i: nat)
    requires i < |ranks| == |nodes|
    requires forall k | 0 < k < |nodes| :: nodes[0].name != nodes[k].name
    requires Charged(l, next, nodes[0].name, ranks[0].spec.need) && ChargedOnce(next, l', ranks[1..], nodes[1..])
    ensures HoldsMore(l, l', nodes[i].name, ranks[i].spec.need)
  {
    if i == 0 {
      assert NotAmong(nodes[1..], nodes[0].name);
      assert HoldsSame(next, l', nodes[0].name);
    } else {
      assert HoldsMore(next, l', nodes[1..][i - 1].name, ranks[1..][i - 1].spec.need);
    }
  }

  lemma ChargeJoinsOff(l: Ledger, next: Ledger, l': Ledger, ranks: seq<JobRec>, nodes: seq<Member>, node: string)
    requires ranks != [] && |ranks| == |nodes| && NotAmong(nodes, node)
    requires Charged(l, next, nodes[0].name, ranks[0].spec.need) && ChargedOnce(next, l', ranks[1..], nodes[1..])
    ensures HoldsSame(l, l', node)
  {
    assert NotAmong(nodes[1..], node) && node != nodes[0].name;
    assert HoldsSame(next, l', node);
  }

  lemma ChargeJoinsRest(l: Ledger, next: Ledger, l': Ledger, ranks: seq<JobRec>, nodes: seq<Member>)
    requires ranks != [] && |ranks| == |nodes|
    requires Charged(l, next, nodes[0].name, ranks[0].spec.need) && ChargedOnce(next, l', ranks[1..], nodes[1..])
    ensures RestHoldSame(l, l', nodes)
  {
    forall node | NotAmong(nodes, node) ensures HoldsSame(l, l', node) {
      ChargeJoinsOff(l, next, l', ranks, nodes, node);
    }
  }

  lemma ChargeJoins(l: Ledger, next: Ledger, l': Ledger, ranks: seq<JobRec>, nodes: seq<Member>)
    requires ranks != [] && |ranks| == |nodes|
    requires forall k | 0 < k < |nodes| :: nodes[0].name != nodes[k].name
    requires Charged(l, next, nodes[0].name, ranks[0].spec.need) && ChargedOnce(next, l', ranks[1..], nodes[1..])
    ensures ChargedOnce(l, l', ranks, nodes)
  {
    forall i | 0 <= i < |nodes| ensures HoldsMore(l, l', nodes[i].name, ranks[i].spec.need) {
      ChargeJoinsAt(l, next, l', ranks, nodes, i);
    }
    ChargeJoinsRest(l, next, l', ranks, nodes);
  }

  // ---------- the ranks of a group ----------

  /** If as many ranks are queued as there are ids, rank i has the i-th id. */
  lemma {:induction false} AllQueued(s: Sched, ids: seq<string>)
    requires forall k | k in s.jobs :: s.jobs[k].spec.id == k
    ensures |QueuedAmong(s, ids)| <= |ids|
    ensures |QueuedAmong(s, ids)| == |ids|
        ==> forall i | 0 <= i < |ids| :: InState(s, ids[i], Queued) && QueuedAmong(s, ids)[i] == s.jobs[ids[i]]
    ensures (forall i | 0 <= i < |ids| :: InState(s, ids[i], Queued)) ==> |QueuedAmong(s, ids)| == |ids|
  {
    if ids != [] {
      AllQueued(s, ids[1..]);
      if |QueuedAmong(s, ids)| == |ids| {
        forall i | 0 <= i < |ids| ensures InState(s, ids[i], Queued) && QueuedAmong(s, ids)[i] == s.jobs[ids[i]] {
          if i > 0 {
            assert ids[1..][i - 1] == ids[i];
          }
        }
      }
      if forall i | 0 <= i < |ids| :: InState(s, ids[i], Queued) {
        assert InState(s, ids[0], Queued);
        assert forall i | 0 <= i < |ids[1..]| :: ids[1..][i] == ids[i + 1];
      }
    }
  }

  /** The ranks of a group ask for the same thing. */
  lemma RanksUniform(s: Sched, g: GroupRec)
    requires Shape(s) && g.id in s.groups && s.groups[g.id] == g
    requires |QueuedAmong(s, g.jobIds)| == g.numNodes
    ensures Uniform(QueuedAmong(s, g.jobIds), QueuedAmong(s, g.jobIds)[0].spec)
  {
    var ranks := QueuedAmong(s, g.jobIds);
    QueuedAmongWaits(s, g.jobIds);
    QueuedRanksBelong(s, g.id);
    forall r | r in ranks ensures r.spec.need == ranks[0].spec.need && r.spec.requirement == ranks[0].spec.requirement {
      assert ranks[0] in ranks;
      assert Alike(s.jobs[r.spec.id].spec, s.jobs[ranks[0].spec.id].spec);
    }
  }

  // ---------- all or nothing ----------

  /** The whole gang can go: every rank is queued, and some assignment puts the
      ranks on distinct members that can take them. */
  ghost predicate Ready(m: Master, g: GroupRec, matches: Matcher, now: int) {
    && (forall i | 0 <= i < |g.jobIds| :: InState(m.sched, g.jobIds[i], Queued))
    && (exists nodes :: Assigns(m.breaker, m.ledger, matches, QueuedAmong(m.sched, g.jobIds), m.members, now, nodes))
  }

  /** Every rank runs on its own node, which was charged for it; exactly the ranks
      left the heap; the payloads were sent; nobody else changed. */
  ghost predicate RanksStart(m: Master, m': Master, ranks: seq<JobRec>, nodes: seq<Member>, now: int)
    requires |ranks| == |nodes| > 0
  {
    && (forall i | 0 <= i < |ranks| :: RankRuns(m', ranks[i], nodes[i], now))
    && OthersKept(m, m', ranks)
    && multiset(m'.sched.queue) + multiset(RankSpecs(ranks)) == multiset(m.sched.queue)
    && ChargedOnce(m.ledger, m'.ledger, ranks, nodes)
    && m'.sent == m.sent + Payloads(m.members, ranks, nodes, nodes[0].addr)
  }

  /** The whole gang went, each rank onto the first node that could take it and was
      still free, and the group runs. */
  ghost predicate GangStarts(m: Master, m': Master, g: GroupRec, matches: Matcher, now: int, nodes: seq<Member>) {
    var ranks := QueuedAmong(m.sched, g.jobIds);
    && |ranks| == |nodes| == |g.jobIds| > 0
    && (forall i | 0 <= i < |ranks| :: ranks[i].spec.id == g.jobIds[i])
    && Assigns(m.breaker, m.ledger, matches, ranks, m.members, now, nodes)
    && Greedy(m.breaker, m.ledger, matches, ranks, m.members, now, nodes)
    && RanksStart(m, m', ranks, nodes, now)
    && m'.sched.groups == m.sched.groups[g.id := g.(state := GroupRunning)]
  }

  ghost predicate SomeGangStarts(m: Master, m': Master, g: GroupRec, matches: Matcher, now: int) {
    exists nodes :: GangStarts(m, m', g, matches, now, nodes)
  }

  lemma ReadyIsMatched(m: Master, g: GroupRec, matches: Matcher, now: int)
    requires Shape(m.sched) && PendingNow(m.sched, g)
    ensures var ranks := QueuedAmong(m.sched, g.jobIds);
            Ready(m, g, matches, now)
            <==> |ranks| == g.numNodes && MatchRanks(m.breaker, m.ledger, matches, {}, ranks, m.members,
                  now).found.Some?
  {
    var ranks := QueuedAmong(m.sched, g.jobIds);
    AllQueued(m.sched, g.jobIds);
    if |ranks| == g.numNodes {
      RanksUniform(m.sched, g);
      GreedyComplete(m.breaker, m.ledger, matches, ranks, m.members, now, ranks[0].spec);
    }
  }

  /** The loop as a whole, from the matched nodes. */
  lemma LoopStarts(m: Master, ranks: seq<JobRec>, nodes: seq<Member>, now: int)
    requires Core(m) && CanStart(m, ranks, nodes) && Waiting(m.sched, ranks) && ranks != []
    ensures RanksStart(m, DispatchRanks(m, ranks, nodes, nodes[0].addr, now), ranks, nodes, now)
  {
    var addr := nodes[0].addr;
    LoopKeepsOthers(m, ranks, nodes, addr, now);
    forall i | 0 <= i < |ranks|
      ensures RankRuns(DispatchRanks(m, ranks, nodes, addr, now), ranks[i], nodes[i], now)
    {
      LoopRuns(m, ranks, nodes, addr, now, i);
    }
    LoopSends(m, ranks, nodes, addr, now);
    LoopUnqueues(m, ranks, nodes, addr, now);
    LoopCharges(m, ranks, nodes, addr, now);
  }

  lemma StartSurvives(m: Master, asked: Master, started: Master, m': Master, ranks: seq<JobRec>, nodes: seq<Member>,
        now: int)
    requires |ranks| == |nodes| > 0 && RanksStart(asked, started, ranks, nodes, now)
    requires asked == m.(breaker := asked.breaker)
    requires m' == started.(sched := started.sched.(groups := m'.sched.groups, writes := m'.sched.writes))
    ensures RanksStart(m, m', ranks, nodes, now)
  {
    forall i | 0 <= i < |ranks| ensures RankRuns(m', ranks[i], nodes[i], now) {
      assert RankRuns(started, ranks[i], nodes[i], now);
    }
  }

  /** The matched ranks are in order and can start. */
  ghost predicate InOrder(m: Master, asked: Master, g: GroupRec, ranks: seq<JobRec>, nodes: seq<Member>) {
    && asked == m.(breaker := asked.breaker) && Core(asked) && Sound(asked.sched)
    && |nodes| == |ranks| == |g.jobIds| > 0
    && (forall i | 0 <= i < |ranks| :: ranks[i].spec.id == g.jobIds[i])
    && Waiting(asked.sched, ranks) && CanStart(asked, ranks, nodes)
    && PendingNow(m.sched, g)
  }

  lemma MatchedInOrder(m: Master, g: GroupRec, matches: Matcher, now: int, asked: Master, nodes: seq<Member>)
    requires Static(m) && PendingNow(m.sched, g) && |QueuedAmong(m.sched, g.jobIds)| == g.numNodes
    requires asked == m.(breaker := asked.breaker)
    requires Assigns(m.breaker, m.ledger, matches, QueuedAmong(m.sched, g.jobIds), m.members, now, nodes)
    ensures InOrder(m, asked, g, QueuedAmong(m.sched, g.jobIds), nodes)
  {
    RanksInOrder(m.sched, g);
    AssignsCanStart(m, QueuedAmong(m.sched, g.jobIds), matches, now, nodes);
    StillCanStart(m, asked, QueuedAmong(m.sched, g.jobIds), nodes);
    hide QueuedAmong, Assigns, CanStart, Waiting, GangShaped, RanksOf, RanksOk, CoreOf;
  }

  lemma RanksInOrder(s: Sched, g: GroupRec)
    requires Shape(s) && PendingNow(s, g) && |QueuedAmong(s, g.jobIds)| == g.numNodes
    ensures Waiting(s, QueuedAmong(s, g.jobIds)) && |QueuedAmong(s, g.jobIds)| == |g.jobIds| > 0
    ensures forall i | 0 <= i < |g.jobIds| :: QueuedAmong(s, g.jobIds)[i].spec.id == g.jobIds[i]
  {
    QueuedAmongWaits(s, g.jobIds);
    AllQueued(s, g.jobIds);
    hide QueuedAmong, RanksOf;
  }

  lemma StillCanStart(m: Master, asked: Master, ranks: seq<JobRec>, nodes: seq<Member>)
    requires CanStart(m, ranks, nodes) && asked == m.(breaker := asked.breaker)
    ensures CanStart(asked, ranks, nodes)
  {
    hide CanDispatch, InState;
  }

  lemma StartedAll(m: Master, g: GroupRec, now: int, asked: Master, ranks: seq<JobRec>, nodes: seq<Member>)
    requires InOrder(m, asked, g, ranks, nodes)
    ensures var started := DispatchRanks(asked, ranks, nodes, nodes[0].addr, now);
            var m' := started.(sched := SetGroupState(started.sched, g.id, GroupRunning));
            RanksStart(m, m', ranks, nodes, now) && m'.sched.groups == m.sched.groups[g.id := g.(state := GroupRunning)]
  {
    hide CoreOf, CanStart, RanksStart, Waiting;
    var started := DispatchRanks(asked, ranks, nodes, nodes[0].addr, now);
    LoopStarts(asked, ranks, nodes, now);
    DispatchRanksSteady(asked, ranks, nodes, nodes[0].addr, now);
    StartSurvives(m, asked, started, started.(sched := SetGroupState(started.sched, g.id, GroupRunning)), ranks,
          nodes, now);
  }

  lemma LoopOutcome(m: Master, g: GroupRec, matches: Matcher, now: int, asked: Master, nodes: seq<Member>)
    requires Static(m) && PendingNow(m.sched, g) && |QueuedAmong(m.sched, g.jobIds)| == g.numNodes
    requires asked == m.(breaker := asked.breaker)
    requires Assigns(m.breaker, m.ledger, matches, QueuedAmong(m.sched, g.jobIds), m.members, now, nodes)
    requires |nodes| == |QueuedAmong(m.sched, g.jobIds)|
    requires Greedy(m.breaker, m.ledger, matches, QueuedAmong(m.sched, g.jobIds), m.members, now, nodes)
    ensures |nodes| == |g.jobIds| > 0
    ensures var started := DispatchRanks(asked, QueuedAmong(m.sched, g.jobIds), nodes, nodes[0].addr, now);
            GangStarts(m, started.(sched := SetGroupState(started.sched, g.id, GroupRunning)), g, matches, now, nodes)
  {
    hide Static, Assigns, Greedy, RanksStart, DispatchRanks;
    MatchedInOrder(m, g, matches, now, asked, nodes);
    StartedAll(m, g, now, asked, QueuedAmong(m.sched, g.jobIds), nodes);
  }

  /** All or nothing: a pending group that can go as a whole goes as a whole;
      otherwise only expired blocks are forgotten. */
  lemma AllOrNothing(m: Master, g: GroupRec, matches: Matcher, now: int)
    requires Static(m) && PendingNow(m.sched, g)
    ensures g.numNodes >= 1
    ensures if Ready(m, g, matches, now) then SomeGangStarts(m, TryGang(m, g, matches, now), g, matches, now)
            else Idles(m, TryGang(m, g, matches, now), now)
    ensures Core(TryGang(m, g, matches, now))
  {
    assert g.numNodes >= 1 && Sound(m.sched) && GangShaped(g);
    var ranks := QueuedAmong(m.sched, g.jobIds);
    ReadyIsMatched(m, g, matches, now);
    TryGangCore(m, g, matches, now);
    hide Static, Core, Shape, Ready, Assigns, Greedy, GangStarts, GangShaped, Sound, QueuedAmong, MatchRanks;
    MatchSound(m.breaker, m.ledger, matches, {}, ranks, m.members, now);
    if Ready(m, g, matches, now) {
      var fit := MatchRanks(m.breaker, m.ledger, matches, {}, ranks, m.members, now);
      MatchIsGreedy(m.breaker, m.ledger, matches, ranks, m.members, now);
      LoopOutcome(m, g, matches, now, m.(breaker := fit.breaker), fit.found.value);
    }
  }

  /** In terms of capacity: the gang goes iff all its ranks are queued and at
      least as many distinct members can take a rank. */
  lemma ReadyCounts(m: Master, g: GroupRec, matches: Matcher, now: int)
    requires Static(m) && PendingNow(m.sched, g) && |QueuedAmong(m.sched, g.jobIds)| == g.numNodes
    ensures var spec := QueuedAmong(m.sched, g.jobIds)[0].spec;
            Ready(m, g, matches, now)
            <==> |Candidates(m.breaker, m.ledger, matches, spec, m.members, now)| >= g.numNodes
  {
    var ranks := QueuedAmong(m.sched, g.jobIds);
    AllQueued(m.sched, g.jobIds);
    RanksUniform(m.sched, g);
    GreedyComplete(m.breaker, m.ledger, matches, ranks, m.members, now, ranks[0].spec);
  }

  /** Any listing of pending groups is safe to dispatch: no group is empty, and each
      is filed under its own id, as the tick of the class requires. */
  lemma NoEmptyGang(m: Master, gs: seq<GroupRec>)
    requires Static(m) && ListsPending(m.sched, gs)
    ensures forall g | g in gs :: g.numNodes >= 1
    ensures GroupsNamed(m.sched) && forall gid | gid in m.sched.groups :: m.sched.groups[gid].numNodes >= 1
  {
    PendingListed(m, gs);
  }

  // ---------- what the ranks are told ----------

  /** Rank i is told its number, the size of the gang and rank 0's address. */
  predicate ToldAsRank(p: Payload, i: nat, n: nat, addr: string) {
    && p.Execute?
    && "RANK" in p.env && p.env["RANK"] == Itoa(i)
    && "WORLD_SIZE" in p.env && p.env["WORLD_SIZE"] == Itoa(n)
    && "MASTER_ADDR" in p.env && p.env["MASTER_ADDR"] == addr
  }

  lemma RankTold(s: Sched, g: GroupRec, i: nat, members: seq<Member>, node: Member, addr: string)
    requires RanksOf(s.jobs, g) && i < |g.jobIds| && g.jobIds[i] in s.jobs
    ensures ToldAsRank(RankPayload(members, s.jobs[g.jobIds[i]], node, addr), i, |g.jobIds|, addr)
  {
    var spec := s.jobs[g.jobIds[i]].spec;
    UserWins(spec.env["MASTER_ADDR" := addr], spec.need.gpus, VendorOf(members, node.name));
    assert "MASTER_ADDR" != "RANK" && "MASTER_ADDR" != "WORLD_SIZE";
  }

  /** The i-th payload of a dispatched gang goes to the i-th node and carries rank
      i of n, and the address of the node that was given rank 0. */
  lemma GangEnvironment(m: Master, m': Master, g: GroupRec, matches: Matcher, now: int, nodes: seq<Member>, i: nat)
    requires Shape(m.sched) && PendingNow(m.sched, g)
    requires GangStarts(m, m', g, matches, now, nodes) && i < |nodes|
    ensures |m'.sent| == |m.sent| + |nodes|
    ensures var p := m'.sent[|m.sent| + i];
            ToldAsRank(p, i, |nodes|, nodes[0].addr) && p.node == nodes[i].name && p.jobId == g.jobIds[i]
  {
    var ranks := QueuedAmong(m.sched, g.jobIds);
    AllQueued(m.sched, g.jobIds);
    RankTold(m.sched, g, i, m.members, nodes[i], nodes[0].addr);
    hide QueuedAmong, Assigns, Greedy, ChargedOnce, OthersKept, RankRuns, ToldAsRank, WithDevices;
    assert m'.sent[|m.sent| + i] == Payloads(m.members, ranks, nodes, nodes[0].addr)[i];
  }

  /** Different ranks are told different numbers. */
  lemma RanksDistinct(p: Payload, q: Payload, i: nat, j: nat, n: nat, addr: string)
    requires ToldAsRank(p, i, n, addr) && ToldAsRank(q, j, n, addr) && p.env["RANK"] == q.env["RANK"]
    ensures i == j
  {
    ItoaInjective(i, j);
  }
}
