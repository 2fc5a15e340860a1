/** The circuit breaker and the fairshare account over runs: both are exactly what
    reports, decays and the queries of the ticks made of them, whatever else happens. */
module ReportHistory {
  import opened Types
  import opened Scheduling
  import opened MasterSteps
  import opened Continuity
  import opened GangScheduling
  import opened Events
  import opened Runs
  import Ledger
  import CB = CircuitBreaker
  import Fairshare

  // ---------- what a report says ----------

  predicate Mentions(s: string, sub: string) {
    exists i | 0 <= i <= |s| :: sub <= s[i..]
  }

  /** The failures that are not held against the node. */
  predicate OwnFault(error: string) {
    "exit status" <= error || error == "cancelled" || Mentions(error, "walltime exceeded")
  }

  /** Reports about tracked jobs reach the breaker: a success clears the node, a
      failure counts against it unless it is the user's fault. */
  function Verdict(m: Master, e: Event): seq<CB.Event> {
    if !e.Reported? || e.result.jobId !in m.sched.jobs then []
    else if e.result.success then [CB.Success(e.result.worker)]
    else if OwnFault(e.result.error) then []
    else [CB.Failure(e.result.worker, e.result.jobId, e.now)]
  }

  lemma {:induction false} ContainsMentions(s: string, sub: string)
    ensures Contains(s, sub) <==> Mentions(s, sub)
  {
    assert s[0..] == s;
    if s == [] {
      assert forall i | 0 <= i <= |s| :: s[i..] == s;
    } else {
      ContainsMentions(s[1..], sub);
      forall i | 0 <= i <= |s[1..]| ensures s[1..][i..] == s[i + 1..] {
      }
      forall i | 0 < i <= |s| ensures s[i..] == s[1..][i - 1..] {
      }
    }
  }

  /** The master tells these failures apart from the others. */
  lemma OwnFaultIsTold(error: string)
    ensures IsUserError(error) <==> OwnFault(error)
  {
    ContainsMentions(error, "walltime exceeded");
  }

  function Verdicts(es: seq<Event>, rs: seq<Run>, i: nat): seq<CB.Event>
    requires i <= |es| && i <= |rs|
  {
    if i == 0 then [] else Verdicts(es, rs, i - 1) + Verdict(rs[i - 1].m, es[i - 1])
  }

  /** A report that ends a run is billed for the time since the job started. */
  function Charge(m: Master, e: Event): seq<Fairshare.Event> {
    if e.UsageDecayed? then [Fairshare.Decay]
    else if e.Reported? && InState(m.sched, e.result.jobId, Running)
            && e.now > m.sched.jobs[e.result.jobId].startTime
    then
      var job := m.sched.jobs[e.result.jobId];
      [Fairshare.Record(job.spec.user, (e.now - job.startTime) as real / 1_000_000_000.0)]
    else []
  }

  function Charges(es: seq<Event>, rs: seq<Run>, i: nat): seq<Fairshare.Event>
    requires i <= |es| && i <= |rs|
  {
    if i == 0 then [] else Charges(es, rs, i - 1) + Charge(rs[i - 1].m, es[i - 1])
  }

  // ---------- what a tick asks the breaker ----------
  // The searches of MasterSteps.dfy again, now for the queries they make.

  function FitQueries(b: CB.Breaker, l: Ledger.Ledger, matches: Matcher, used: set<string>, spec: JobSpec,
                      members: seq<Member>, now: int): seq<CB.Event>
    decreases |members|
  {
    if members == [] then []
    else if members[0].name in used || !members[0].hasMeta then
      FitQueries(b, l, matches, used, spec, members[1..], now)
    else
      var asked := CB.Query(members[0].name, now);
      if Eligible(b, l, matches, spec, members[0], now) then [asked]
      else [asked] + FitQueries(CB.Step(b, asked), l, matches, used, spec, members[1..], now)
  }

  function MatchQueries(b: CB.Breaker, l: Ledger.Ledger, matches: Matcher, used: set<string>, ranks: seq<JobRec>,
                        members: seq<Member>, now: int): seq<CB.Event>
    decreases |ranks|
  {
    if ranks == [] then []
    else
      var fit := FirstFit(b, l, matches, used, ranks[0].spec, members, now);
      FitQueries(b, l, matches, used, ranks[0].spec, members, now)
      + if fit.found == None then []
        else MatchQueries(fit.breaker, l, matches, used + {fit.found.value.name}, ranks[1..], members, now)
  }

  function GangQueries(m: Master, g: GroupRec, matches: Matcher, now: int): seq<CB.Event> {
    var ranks := QueuedAmong(m.sched, g.jobIds);
    if TimedOut(g, now) || |ranks| != g.numNodes then []
    else MatchQueries(m.breaker, m.ledger, matches, {}, ranks, m.members, now)
  }

  function PhaseQueries(m: Master, gs: seq<GroupRec>, matches: Matcher, now: int): seq<CB.Event>
    requires forall g | g in gs :: g.numNodes >= 1
    decreases |gs|
  {
    if gs == [] then []
    else GangQueries(m, gs[0], matches, now) + PhaseQueries(GangTick(m, gs[0], matches, now), gs[1..], matches, now)
  }

  function FillQueries(m: Master, members: seq<Member>, matches: Matcher, now: int): seq<CB.Event>
    decreases |members|
  {
    if members == [] then []
    else if !members[0].hasMeta then FillQueries(m, members[1..], matches, now)
    else
      var asked := CB.Query(members[0].name, now);
      if !CB.Blocks(m.breaker, members[0].name, now)
         && BackfillChoice(m.sched, Fillable(m.ledger, matches, members[0])) != None
      then [asked]
      else [asked] + FillQueries(m.(breaker := CB.Step(m.breaker, asked)), members[1..], matches, now)
  }

  function SingleQueries(m: Master, matches: Matcher, now: int): seq<CB.Event> {
    var top := Top(m.sched);
    if top == None || top.value.spec.groupId != "" then []
    else
      var fit := FirstFit(m.breaker, m.ledger, matches, {}, top.value.spec, m.members, now);
      FitQueries(m.breaker, m.ledger, matches, {}, top.value.spec, m.members, now)
      + if fit.found != None then [] else FillQueries(m.(breaker := fit.breaker), m.members, matches, now)
  }

  function TickQueries(m: Master, gs: seq<GroupRec>, matches: Matcher, now: int): seq<CB.Event>
    requires forall g | g in gs :: g.numNodes >= 1
  {
    PhaseQueries(m, gs, matches, now) + SingleQueries(GangPhase(m, gs, matches, now), matches, now)
  }

  /** Pending groups have at least one rank. */
  predicate Sized(e: Event) {
    e.Ticked? ==> forall g | g in e.pending :: g.numNodes >= 1
  }

  /** All that the event tells or asks the breaker. */
  function Signals(cfg: Config, m: Master, e: Event): seq<CB.Event> {
    if e.Ticked? && Sized(e) then TickQueries(m, e.pending, cfg.matches, e.now) else Verdict(m, e)
  }

  /** The history of the breaker up to state i. */
  function History(cfg: Config, es: seq<Event>, rs: seq<Run>, i: nat): seq<CB.Event>
    requires i <= |es| && i <= |rs|
  {
    if i == 0 then [] else History(cfg, es, rs, i - 1) + Signals(cfg, rs[i - 1].m, es[i - 1])
  }

  // ---------- searching and dispatching ----------

  lemma {:induction false} FitReplays(b: CB.Breaker, l: Ledger.Ledger, matches: Matcher, used: set<string>,
                                      spec: JobSpec, members: seq<Member>, now: int)
    ensures FirstFit(b, l, matches, used, spec, members, now).breaker
         == CB.Replay(b, FitQueries(b, l, matches, used, spec, members, now))
    decreases |members|
  {
    if members != [] {
      FitReplays(b, l, matches, used, spec, members[1..], now);
      FitReplays(CB.Queried(b, members[0].name, now), l, matches, used, spec, members[1..], now);
    }
  }

  lemma {:induction false} MatchReplays(b: CB.Breaker, l: Ledger.Ledger, matches: Matcher, used: set<string>,
                                        ranks: seq<JobRec>, members: seq<Member>, now: int)
    ensures MatchRanks(b, l, matches, used, ranks, members, now).breaker
         == CB.Replay(b, MatchQueries(b, l, matches, used, ranks, members, now))
    decreases |ranks|
  {
    if ranks != [] {
      var fit := FirstFit(b, l, matches, used, ranks[0].spec, members, now);
      var queries := FitQueries(b, l, matches, used, ranks[0].spec, members, now);
      FitReplays(b, l, matches, used, ranks[0].spec, members, now);
      if fit.found == None {
        assert queries + [] == queries;
      } else {
        var used' := used + {fit.found.value.name};
        MatchReplays(fit.breaker, l, matches, used', ranks[1..], members, now);
        CB.ReplayAppends(b, queries, MatchQueries(fit.breaker, l, matches, used', ranks[1..], members, now));
      }
    }
  }

  /** Nothing was reported: usage is kept and the breaker was asked just that. */
  predicate Silent(m: Master, m': Master, queries: seq<CB.Event>) {
    m'.usage == m.usage && m'.breaker == CB.Replay(m.breaker, queries)
  }

  lemma SilentTrans(a: Master, b: Master, c: Master, first: seq<CB.Event>, then_: seq<CB.Event>)
    requires Silent(a, b, first) && Silent(b, c, then_)
    ensures Silent(a, c, first + then_)
  {
    CB.ReplayAppends(a.breaker, first, then_);
  }

  /** Neither was touched at all. */
  predicate Untouched(m: Master, m': Master) {
    m'.usage == m.usage && m'.breaker == m.breaker
  }

  lemma {:induction false} DispatchUntouched(m: Master, ranks: seq<JobRec>, nodes: seq<Member>, addr: string, now: int)
    requires |ranks| == |nodes|
    ensures Untouched(m, DispatchRanks(m, ranks, nodes, addr, now))
    decreases |ranks|
  {
    if ranks != [] {
      DispatchUntouched(Start1(m, ranks[0], nodes[0], addr, now), ranks[1..], nodes[1..], addr, now);
    }
  }

  lemma GangTickSilent(m: Master, g: GroupRec, matches: Matcher, now: int)
    requires g.numNodes >= 1
    ensures Silent(m, GangTick(m, g, matches, now), GangQueries(m, g, matches, now))
  {
    var ranks := QueuedAmong(m.sched, g.jobIds);
    var fit := MatchRanks(m.breaker, m.ledger, matches, {}, ranks, m.members, now);
    MatchReplays(m.breaker, m.ledger, matches, {}, ranks, m.members, now);
    if fit.found != None {
      MatchRanksLength(m.breaker, m.ledger, matches, {}, ranks, m.members, now);
      if |ranks| == g.numNodes {
        DispatchUntouched(m.(breaker := fit.breaker), ranks, fit.found.value, fit.found.value[0].addr, now);
      }
    }
  }

  lemma {:induction false} GangPhaseSilent(m: Master, gs: seq<GroupRec>, matches: Matcher, now: int)
    requires forall g | g in gs :: g.numNodes >= 1
    ensures Silent(m, GangPhase(m, gs, matches, now), PhaseQueries(m, gs, matches, now))
    decreases |gs|
  {
    if gs != [] {
      assert gs[0] in gs;
      var m' := GangTick(m, gs[0], matches, now);
      hide GangTick, GangQueries, Silent;
      GangTickSilent(m, gs[0], matches, now);
      GangPhaseSilent(m', gs[1..], matches, now);
      SilentTrans(m, m', GangPhase(m', gs[1..], matches, now), GangQueries(m, gs[0], matches, now),
                  PhaseQueries(m', gs[1..], matches, now));
    }
  }

  lemma {:induction false} FillSilent(m: Master, members: seq<Member>, matches: Matcher, now: int)
    ensures Silent(m, FillPhase(m, members, matches, now), FillQueries(m, members, matches, now))
    decreases |members|
  {
    if members != [] {
      FillSilent(m, members[1..], matches, now);
      FillSilent(m.(breaker := CB.Queried(m.breaker, members[0].name, now)), members[1..], matches, now);
    }
  }

  lemma SinglesSilent(m: Master, matches: Matcher, now: int)
    ensures Silent(m, SinglePhase(m, matches, now), SingleQueries(m, matches, now))
  {
    var top := Top(m.sched);
    if top != None && top.value.spec.groupId == "" {
      var fit := FirstFit(m.breaker, m.ledger, matches, {}, top.value.spec, m.members, now);
      var queries := FitQueries(m.breaker, m.ledger, matches, {}, top.value.spec, m.members, now);
      var asked := m.(breaker := fit.breaker);
      FitReplays(m.breaker, m.ledger, matches, {}, top.value.spec, m.members, now);
      assert queries + [] == queries;
      FillSilent(asked, m.members, matches, now);
      SilentTrans(m, asked, FillPhase(asked, m.members, matches, now), queries,
                  FillQueries(asked, m.members, matches, now));
    }
  }

  lemma TickSilent(m: Master, gs: seq<GroupRec>, matches: Matcher, now: int)
    requires forall g | g in gs :: g.numNodes >= 1
    ensures Silent(m, Tick(m, gs, matches, now), TickQueries(m, gs, matches, now))
  {
    var m' := GangPhase(m, gs, matches, now);
    hide GangPhase, SinglePhase, PhaseQueries, SingleQueries, Silent;
    GangPhaseSilent(m, gs, matches, now);
    SinglesSilent(m', matches, now);
    SilentTrans(m, m', SinglePhase(m', matches, now), PhaseQueries(m, gs, matches, now),
                SingleQueries(m', matches, now));
  }

  // ---------- the other sweeps ----------

  lemma {:induction false} WalltimeUntouched(m: Master, recs: seq<JobRec>, now: int)
    ensures Untouched(m, WalltimeSweep(m, recs, now))
    decreases |recs|
  {
    if recs != [] {
      WalltimeUntouched(Kill1(m, recs[0], now), recs[1..], now);
    }
  }

  lemma {:induction false} RequeueUntouched(m: Master, ids: seq<string>)
    ensures Untouched(m, RequeueAll(m, ids))
    decreases |ids|
  {
    if ids != [] {
      RequeueUntouched(Requeue1(m, ids[0]), ids[1..]);
    }
  }

  lemma {:induction false} LoseUntouched(m: Master, node: string, recs: seq<JobRec>, now: int)
    ensures Untouched(m, LoseAll(m, node, recs, now))
    decreases |recs|
  {
    if recs != [] {
      LoseUntouched(Lose1(m, node, recs[0], now), node, recs[1..], now);
    }
  }

  lemma {:induction false} SiblingsUntouched(m: Master, ids: seq<string>, spared: string, now: int)
    ensures Untouched(m, CancelSiblings(m, ids, spared, now))
    decreases |ids|
  {
    if ids != [] {
      SiblingsUntouched(if ids[0] == spared then m else CancelJob(m, ids[0], now), ids[1..], spared, now);
    }
  }

  lemma CompletionUntouched(m: Master, r: Result, now: int)
    ensures Untouched(m, CompleteGroup(m, r, now))
  {
    if r.jobId in m.sched.jobs {
      var gid := m.sched.jobs[r.jobId].spec.groupId;
      if gid in m.sched.groups {
        SiblingsUntouched(m, m.sched.groups[gid].jobIds, r.jobId, now);
      }
    }
  }

  // ---------- reports ----------

  /** A report passes exactly its verdict to the breaker. */
  lemma ReportJudges(m: Master, r: Result, now: int)
    ensures var v := Verdict(m, Reported(r, now));
            ReportGuarded(m, r, now).breaker == if v == [] then m.breaker else CB.Step(m.breaker, v[0])
  {
    OwnFaultIsTold(r.error);
    hide OwnFault, IsUserError;
    CompletionUntouched(Settle(m, r, now), r, now);
    CompletionUntouched(m.(breaker := Judged(m.breaker, r, now)), r, now);
  }

  /** And exactly its charge to the account. */
  lemma ReportCharges(m: Master, r: Result, now: int)
    requires Sound(m.sched)
    ensures var c := Charge(m, Reported(r, now));
            ReportGuarded(m, r, now).usage
            == if c == [] then m.usage else Fairshare.Recorded(m.usage, c[0].user, c[0].units)
  {
    CompletionUntouched(Settle(m, r, now), r, now);
    CompletionUntouched(m.(breaker := Judged(m.breaker, r, now)), r, now);
    if InState(m.sched, r.jobId, Running) {
      SettleBills(m, r, now);
    }
  }

  lemma SettleBills(m: Master, r: Result, now: int)
    requires Sound(m.sched) && InState(m.sched, r.jobId, Running)
    ensures var c := Charge(m, Reported(r, now));
            Settle(m, r, now).usage
            == if c == [] then m.usage else Fairshare.Recorded(m.usage, c[0].user, c[0].units)
  {
  }

  // ---------- every event ----------

  lemma TickedSilent(cfg: Config, m: Master, e: Event)
    requires Possible(m, e) && e.Ticked?
    ensures Silent(m, Apply(cfg, m, e), Signals(cfg, m, e))
  {
    hide Tick, TickQueries, Silent;
    TickSilent(m, e.pending, cfg.matches, e.now);
  }

  lemma OtherEventsSilent(cfg: Config, m: Master, e: Event)
    requires Possible(m, e) && !e.Reported? && !e.UsageDecayed?
    ensures Silent(m, Apply(cfg, m, e), Signals(cfg, m, e))
  {
    if e.Ticked? {
      TickedSilent(cfg, m, e);
    } else {
      hide Tick, TickQueries, WalltimeSweep, RequeueAll, LoseAll, AdmitRanks;
      match e {
        case WalltimeChecked(running, now) => WalltimeUntouched(m, running, now);
        case HandshakeChecked(ids, _) => RequeueUntouched(Unwatched(m, ids), ids);
        case MemberLeft(name, lost, now) => LoseUntouched(m.(members := Others(m.members, name)), name, lost, now);
        case _ =>
      }
    }
  }

  lemma EventRecorded(cfg: Config, m: Master, e: Event)
    requires Possible(m, e)
    ensures Apply(cfg, m, e).breaker == CB.Replay(m.breaker, Signals(cfg, m, e))
  {
    if e.Reported? {
      ReportJudges(m, e.result, e.now);
    } else if !e.UsageDecayed? {
      OtherEventsSilent(cfg, m, e);
    }
  }

  lemma AccountGrows(start: map<string, real>, h: seq<Fairshare.Event>, e: Fairshare.Event)
    ensures Fairshare.After(start, h + [e])
         == match e
            case Record(user, units) => Fairshare.Recorded(Fairshare.After(start, h), user, units)
            case Decay => Fairshare.Decayed(Fairshare.After(start, h), Fairshare.FACTOR)
  {
    assert (h + [e])[..|h|] == h;
  }

  lemma EventAccounted(cfg: Config, m: Master, e: Event, start: map<string, real>, h: seq<Fairshare.Event>)
    requires Possible(m, e) && Sound(m.sched) && m.usage == Fairshare.After(start, h)
    ensures Apply(cfg, m, e).usage == Fairshare.After(start, h + Charge(m, e))
  {
    var c := Charge(m, e);
    if e.Reported? {
      ReportCharges(m, e.result, e.now);
    } else if !e.UsageDecayed? {
      OtherEventsSilent(cfg, m, e);
    }
    if c == [] {
      assert h + [] == h;
    } else {
      assert c == [c[0]];
      AccountGrows(start, h, c[0]);
    }
  }

  // ---------- every run ----------

  lemma StepRecorded(cfg: Config, es: seq<Event>, rs: seq<Run>, i: nat)
    requires IsRun(cfg, es, rs) && 0 < i < |rs|
    ensures rs[i].m.breaker == CB.Replay(rs[i - 1].m.breaker, Signals(cfg, rs[i - 1].m, es[i - 1]))
  {
    hide Signals, Apply, Initial;
    assert Steps(cfg, rs[i - 1], es[i - 1], rs[(i - 1) + 1]);
    EventRecorded(cfg, rs[i - 1].m, es[i - 1]);
  }

  /** In every state of every run the breaker is what its history makes of it: the
      failures and successes reported and the members the ticks asked about, in order. */
  lemma {:induction false} BreakerIsHistory(cfg: Config, es: seq<Event>, rs: seq<Run>, i: nat)
    requires IsRun(cfg, es, rs) && i < |rs| && rs[0].m.breaker == CB.CLOSED
    ensures rs[i].m.breaker == CB.After(History(cfg, es, rs, i))
  {
    hide Steps, Initial, Signals;
    if i > 0 {
      BreakerIsHistory(cfg, es, rs, i - 1);
      StepRecorded(cfg, es, rs, i);
      CB.AfterReplays(History(cfg, es, rs, i - 1), Signals(cfg, rs[i - 1].m, es[i - 1]));
    }
  }

  /** The usage in state i is the account of the charges so far. */
  ghost predicate Accounted(es: seq<Event>, rs: seq<Run>, i: nat)
    requires i < |rs| && i <= |es|
  {
    rs[i].m.usage == Fairshare.After(rs[0].m.usage, Charges(es, rs, i))
  }

  lemma StepAccounted(cfg: Config, es: seq<Event>, rs: seq<Run>, i: nat)
    requires IsRun(cfg, es, rs) && 0 < i < |rs| && Accounted(es, rs, i - 1)
    ensures Accounted(es, rs, i)
  {
    Reachable(cfg, es, rs, i - 1);
    assert Steps(cfg, rs[i - 1], es[i - 1], rs[(i - 1) + 1]);
    EventAccounted(cfg, rs[i - 1].m, es[i - 1], rs[0].m.usage, Charges(es, rs, i - 1));
  }

  lemma {:induction false} AlwaysAccounted(cfg: Config, es: seq<Event>, rs: seq<Run>, i: nat)
    requires IsRun(cfg, es, rs) && i < |rs|
    ensures Accounted(es, rs, i)
  {
    hide Steps, Initial;
    if i > 0 {
      hide Accounted;
      AlwaysAccounted(cfg, es, rs, i - 1);
      StepAccounted(cfg, es, rs, i);
    }
  }

  /** In every state of every run the usage is exactly the decayed sum of the time
      that reported runs took. */
  lemma UsageAccounted(cfg: Config, es: seq<Event>, rs: seq<Run>, i: nat)
    requires IsRun(cfg, es, rs) && i < |rs|
    ensures rs[i].m.usage == Fairshare.After(rs[0].m.usage, Charges(es, rs, i))
    ensures forall user :: Fairshare.Usage(rs[i].m.usage, user)
                == Fairshare.Owed(Fairshare.Usage(rs[0].m.usage, user), Charges(es, rs, i), user)
  {
    hide Steps, Initial, Fairshare.Owed, Fairshare.After, Fairshare.Usage;
    AlwaysAccounted(cfg, es, rs, i);
    forall user
      ensures Fairshare.Usage(rs[i].m.usage, user)
           == Fairshare.Owed(Fairshare.Usage(rs[0].m.usage, user), Charges(es, rs, i), user)
    {
      Fairshare.UsageIsOwed(rs[0].m.usage, Charges(es, rs, i), user);
    }
  }

  // ---------- consequences ----------

  /** A node is out of service exactly while its failures since the last reset hold
      three counted ones, until five minutes after the last. */
  lemma BlockedExactly(cfg: Config, es: seq<Event>, rs: seq<Run>, i: nat, node: string, now: int)
    requires IsRun(cfg, es, rs) && i < |rs| && rs[0].m.breaker == CB.CLOSED
    ensures var fs := CB.Faults(History(cfg, es, rs, i), node);
            CB.Blocks(rs[i].m.breaker, node, now) <==> CB.Tripped(fs) && now <= CB.Deadline(fs)
  {
    BreakerIsHistory(cfg, es, rs, i);
    hide Steps, Initial, IsRun;
    CB.BlockedMeansThreeFaults(History(cfg, es, rs, i), node, now);
  }

  // ---------- in terms of the reports alone ----------

  predicate AllAsk(h: seq<CB.Event>, now: int) {
    forall e | e in h :: e.Query? && e.at == now
  }

  lemma {:induction false} FitAsks(b: CB.Breaker, l: Ledger.Ledger, matches: Matcher, used: set<string>,
                                   spec: JobSpec, members: seq<Member>, now: int)
    ensures AllAsk(FitQueries(b, l, matches, used, spec, members, now), now)
    decreases |members|
  {
    if members != [] {
      FitAsks(b, l, matches, used, spec, members[1..], now);
      FitAsks(CB.Queried(b, members[0].name, now), l, matches, used, spec, members[1..], now);
    }
  }

  lemma {:induction false} MatchAsks(b: CB.Breaker, l: Ledger.Ledger, matches: Matcher, used: set<string>,
                                     ranks: seq<JobRec>, members: seq<Member>, now: int)
    ensures AllAsk(MatchQueries(b, l, matches, used, ranks, members, now), now)
    decreases |ranks|
  {
    if ranks != [] {
      var fit := FirstFit(b, l, matches, used, ranks[0].spec, members, now);
      FitAsks(b, l, matches, used, ranks[0].spec, members, now);
      if fit.found != None {
        MatchAsks(fit.breaker, l, matches, used + {fit.found.value.name}, ranks[1..], members, now);
      }
    }
  }

  lemma {:induction false} PhaseAsks(m: Master, gs: seq<GroupRec>, matches: Matcher, now: int)
    requires forall g | g in gs :: g.numNodes >= 1
    ensures AllAsk(PhaseQueries(m, gs, matches, now), now)
    decreases |gs|
  {
    if gs != [] {
      MatchAsks(m.breaker, m.ledger, matches, {}, QueuedAmong(m.sched, gs[0].jobIds), m.members, now);
      PhaseAsks(GangTick(m, gs[0], matches, now), gs[1..], matches, now);
    }
  }

  lemma {:induction false} FillAsks(m: Master, members: seq<Member>, matches: Matcher, now: int)
    ensures AllAsk(FillQueries(m, members, matches, now), now)
    decreases |members|
  {
    if members != [] {
      FillAsks(m, members[1..], matches, now);
      FillAsks(m.(breaker := CB.Queried(m.breaker, members[0].name, now)), members[1..], matches, now);
    }
  }

  lemma TickAsks(m: Master, gs: seq<GroupRec>, matches: Matcher, now: int)
    requires forall g | g in gs :: g.numNodes >= 1
    ensures AllAsk(TickQueries(m, gs, matches, now), now)
  {
    var m' := GangPhase(m, gs, matches, now);
    PhaseAsks(m, gs, matches, now);
    if Top(m'.sched) != None {
      var spec := Top(m'.sched).value.spec;
      FitAsks(m'.breaker, m'.ledger, matches, {}, spec, m'.members, now);
      FillAsks(m'.(breaker := FirstFit(m'.breaker, m'.ledger, matches, {}, spec, m'.members, now).breaker), m'.members,
               matches, now);
    }
  }

  /** Queries do not change which failures were reported since the last success. */
  lemma {:induction false} SinceIgnoresQueries(h: seq<CB.Event>, queries: seq<CB.Event>, node: string, now: int)
    requires AllAsk(queries, now)
    ensures CB.Since(h + queries, node) == CB.Since(h, node)
  {
    if queries == [] {
      assert h + queries == h;
    } else {
      var before := queries[..|queries| - 1];
      assert (h + queries)[..|h + queries| - 1] == h + before;
      assert queries[|queries| - 1] in queries;
      SinceIgnoresQueries(h, before, node, now);
    }
  }

  lemma SinceGrowsAlike(h: seq<CB.Event>, h': seq<CB.Event>, e: CB.Event, node: string)
    requires CB.Since(h, node) == CB.Since(h', node)
    ensures CB.Since(h + [e], node) == CB.Since(h' + [e], node)
  {
    assert (h + [e])[..|h|] == h && (h' + [e])[..|h'|] == h';
  }

  lemma SinceStep(cfg: Config, m: Master, e: Event, h: seq<CB.Event>, h': seq<CB.Event>, node: string)
    requires CB.Since(h, node) == CB.Since(h', node)
    ensures CB.Since(h + Signals(cfg, m, e), node) == CB.Since(h' + Verdict(m, e), node)
  {
    if e.Ticked? && Sized(e) {
      TickAsks(m, e.pending, cfg.matches, e.now);
      SinceIgnoresQueries(h, Signals(cfg, m, e), node, e.now);
      assert h' + [] == h';
    } else if Verdict(m, e) == [] {
      assert h + [] == h && h' + [] == h';
    } else {
      assert Verdict(m, e) == [Verdict(m, e)[0]];
      SinceGrowsAlike(h, h', Verdict(m, e)[0], node);
    }
  }

  lemma {:induction false} SinceReports(cfg: Config, es: seq<Event>, rs: seq<Run>, i: nat, node: string)
    requires i <= |es| && i <= |rs|
    ensures CB.Since(History(cfg, es, rs, i), node) == CB.Since(Verdicts(es, rs, i), node)
  {
    hide Signals, Verdict, CB.Since;
    if i == 0 {
      assert History(cfg, es, rs, 0) == Verdicts(es, rs, 0);
    } else {
      SinceReports(cfg, es, rs, i - 1, node);
      SinceStep(cfg, rs[i - 1].m, es[i - 1], History(cfg, es, rs, i - 1), Verdicts(es, rs, i - 1), node);
    }
  }

  /** A node is only ever kept out of service when three failures that were not the
      user's fault were reported of it since its last success, one of them in the
      last five minutes. */
  lemma BlockedNodeFailed(cfg: Config, es: seq<Event>, rs: seq<Run>, i: nat, node: string, now: int)
    requires IsRun(cfg, es, rs) && i < |rs| && rs[0].m.breaker == CB.CLOSED
    requires CB.Blocks(rs[i].m.breaker, node, now)
    ensures var fs := CB.Since(Verdicts(es, rs, i), node);
            |fs| >= 3 && exists f :: f in fs && now <= f.at + 300_000_000_000
  {
    BreakerIsHistory(cfg, es, rs, i);
    SinceReports(cfg, es, rs, i, node);
    hide Steps, Initial, IsRun;
    CB.BlockedHasFailed(History(cfg, es, rs, i), node, now);
  }

  // ---------- with clocks that never go back ----------

  predicate Clocked(e: Event) {
    e.Ticked? || e.Reported?
  }

  /** Ticks and reports read clocks that never go back, and none is past `now`. */
  ghost predicate ClocksAdvance(es: seq<Event>, now: int) {
    && (forall j, k | 0 <= j < k < |es| && Clocked(es[j]) && Clocked(es[k]) :: es[j].now <= es[k].now)
    && (forall j | 0 <= j < |es| && Clocked(es[j]) :: es[j].now <= now)
  }

  /** The signal was sent when one of the first i events happened. */
  ghost predicate Dated(e: CB.Event, es: seq<Event>, i: nat)
    requires i <= |es|
  {
    CB.Timed(e) ==> exists j | 0 <= j < i :: Clocked(es[j]) && es[j].now == e.at
  }

  lemma SignalsDated(cfg: Config, m: Master, e: Event)
    ensures forall s | s in Signals(cfg, m, e) && CB.Timed(s) :: Clocked(e) && s.at == e.now
    ensures forall s | s in Signals(cfg, m, e) && s.Failure? :: e.Reported? && s.jobId == e.result.jobId
  {
    if e.Ticked? && Sized(e) {
      TickAsks(m, e.pending, cfg.matches, e.now);
    }
  }

  /** The history is as chronological as the run. */
  ghost predicate Orderly(h: seq<CB.Event>, es: seq<Event>, i: nat)
    requires i <= |es|
  {
    && CB.Chronological(h)
    && (forall e | e in h :: Dated(e, es, i))
    && (forall e | e in h && e.Failure? :: e.jobId != "")
  }

  lemma OrderlyStep(cfg: Config, m: Master, es: seq<Event>, i: nat, h: seq<CB.Event>, now: int)
    requires i < |es| && Orderly(h, es, i) && ClocksAdvance(es, now)
    requires es[i].Reported? ==> es[i].result.jobId != ""
    ensures Orderly(h + Signals(cfg, m, es[i]), es, i + 1)
  {
    var more := Signals(cfg, m, es[i]);
    SignalsDated(cfg, m, es[i]);
    forall a, b | 0 <= a < b < |h + more| && CB.Timed((h + more)[a]) && CB.Timed((h + more)[b])
      ensures (h + more)[a].at <= (h + more)[b].at
    {
      if a < |h| <= b {
        assert Dated(h[a], es, i) && more[b - |h|] in more;
      }
    }
    forall e | e in h + more ensures Dated(e, es, i + 1) {
      assert e in h ==> Dated(e, es, i);
    }
  }

  lemma {:induction false} HistoryOrderly(cfg: Config, es: seq<Event>, rs: seq<Run>, i: nat, now: int)
    requires i <= |es| && i <= |rs| && ClocksAdvance(es, now)
    requires forall e | e in es && e.Reported? :: e.result.jobId != ""
    ensures Orderly(History(cfg, es, rs, i), es, i)
  {
    hide Signals, Orderly, ClocksAdvance;
    if i == 0 {
      NothingOrderly(es);
    } else {
      HistoryOrderly(cfg, es, rs, i - 1, now);
      assert es[i - 1] in es;
      OrderlyStep(cfg, rs[i - 1].m, es, i - 1, History(cfg, es, rs, i - 1), now);
    }
  }

  lemma NothingOrderly(es: seq<Event>)
    ensures Orderly([], es, 0)
  {
  }

  /** No block is forgotten early: if the failures reported of the node since its
      last success hold three counted ones of the last five minutes, it is blocked. */
  lemma FreshFailuresBlock(cfg: Config, es: seq<Event>, rs: seq<Run>, i: nat, node: string, now: int)
    requires IsRun(cfg, es, rs) && i < |rs| && rs[0].m.breaker == CB.CLOSED
    requires ClocksAdvance(es, now) && forall e | e in es && e.Reported? :: e.result.jobId != ""
    requires CB.Recent(CB.Collapsed(CB.Since(Verdicts(es, rs, i), node)), now - 300_000_000_000) >= 3
    ensures CB.Blocks(rs[i].m.breaker, node, now)
  {
    BreakerIsHistory(cfg, es, rs, i);
    SinceReports(cfg, es, rs, i, node);
    HistoryOrderly(cfg, es, rs, i, now);
    var h := History(cfg, es, rs, i);
    forall e | e in h && CB.Timed(e) ensures e.at <= now {
      assert Dated(e, es, i);
    }
    hide IsRun, Steps, Initial, History, Verdicts, CB.Recent, CB.Collapsed, CB.Since;
    CB.FreshFaultsBlock(h, node, now);
  }

  predicate NoNegativeUsage(u: map<string, real>) {
    forall user | user in u :: u[user] >= 0.0
  }

  lemma {:induction false} AccountNonNegative(start: map<string, real>, h: seq<Fairshare.Event>)
    requires NoNegativeUsage(start) && forall e | e in h && e.Record? :: e.units >= 0.0
    ensures NoNegativeUsage(Fairshare.After(start, h))
  {
    if h != [] {
      var before := h[..|h| - 1];
      assert h[|h| - 1] in h;
      assert forall e | e in before :: e in h;
      AccountNonNegative(start, before);
    }
  }

  lemma {:induction false} ChargesNonNegative(es: seq<Event>, rs: seq<Run>, i: nat)
    requires i <= |es| && i <= |rs|
    ensures forall e | e in Charges(es, rs, i) && e.Record? :: e.units >= 0.0
  {
    if i > 0 {
      ChargesNonNegative(es, rs, i - 1);
    }
  }

  /** So usage never gets negative, and submitting never improves a job's priority
      beyond the one that was asked for. */
  lemma PenaltyNeverHelps(cfg: Config, es: seq<Event>, rs: seq<Run>, i: nat, id: string, req: JobRequest, now: int)
    requires IsRun(cfg, es, rs) && i < |rs| && NoNegativeUsage(rs[0].m.usage)
    ensures NoNegativeUsage(rs[i].m.usage)
    ensures SingleSpec(rs[i].m, cfg, id, req, now).priority >= (if req.priority == 0 then 10 else req.priority)
  {
    UsageAccounted(cfg, es, rs, i);
    ChargesNonNegative(es, rs, i);
    AccountNonNegative(rs[0].m.usage, Charges(es, rs, i));
  }
}
