/** The master of internal/daemon/master.go as a state machine on values.  One
    handler call, enforcer sweep or dispatch tick is one step; the class in
    SchedulerServer.dfy is proved to compute exactly these functions. */
module MasterSteps {
  import opened Types
  import opened Scheduling
  import opened Ledger
  import opened CircuitBreaker
  import Fairshare

  /** A goroutine sleeping until a failed job is to be requeued. */
  datatype Timer = Timer(jobId: string, due: int)

  /** What the database holds. */
  datatype Image = Image(jobs: map<string, JobRec>, groups: map<string, GroupRec>)

  datatype Master = Master(
    sched: Sched,
    ledger: Ledger,
    breaker: Breaker,
    usage: map<string, real>,
    pending: map<string, int>,  // dispatchPending: job -> time of dispatch
    timers: seq<Timer>,
    deadLetters: map<string, JobRec>,
    saved: Image,
    members: seq<Member>,
    sent: seq<Payload>)

  function Fresh(maxQueueSize: int): Master {
    Master(NewSched(maxQueueSize), EMPTY, CLOSED, map[], map[], [], map[], Image(map[], map[]), [], [])
  }

  /** What the environment fixes: the CEL evaluator and the retry limit. */
  datatype Config = Config(matches: Matcher, maxRetries: int)

  // ---------- submission ----------

  datatype JobRequest = JobRequest(
    requirement: string, command: string, priority: int, user: string,
    walltime: int, need: Res, env: map<string, string>)

  function UserOf(req: JobRequest): string {
    if req.user == "" then "anonymous" else req.user
  }

  function BasePriority(req: JobRequest): int {
    if req.priority == 0 then 10 else req.priority
  }

  function SingleSpec(m: Master, cfg: Config, id: string, req: JobRequest, now: int): JobSpec {
    JobSpec(id, req.requirement, req.command, now,
            BasePriority(req) + Fairshare.Penalty(m.usage, UserOf(req)), UserOf(req),
            req.walltime, req.need, req.env, cfg.maxRetries, "")
  }

  function SubmitJob(m: Master, cfg: Config, id: string, req: JobRequest, now: int): Master {
    m.(sched := Enqueue(m.sched, NewJob(SingleSpec(m, cfg, id, req, now))))
  }

  function Digit(d: nat): char
    requires d < 10
  {
    ('0' as int + d) as char
  }

  /** strconv.Itoa */
  function Itoa(n: nat): string {
    if n < 10 then [Digit(n)] else Itoa(n / 10) + [Digit(n % 10)]
  }

  datatype GangRequest = GangRequest(job: JobRequest, nodes: int, masterPort: int)

  function Ranks(req: GangRequest): nat {
    if req.nodes < 1 then 1 else req.nodes
  }

  function PortOf(req: GangRequest): int {
    if req.masterPort == 0 then 29500 else req.masterPort
  }

  function RankId(gid: string, rank: nat): string {
    gid + "-r" + Itoa(rank)
  }

  function SignedItoa(n: int): string {
    if n < 0 then "-" + Itoa(-n) else Itoa(n)
  }

  function RankEnv(req: GangRequest, rank: nat): map<string, string> {
    req.job.env["RANK" := Itoa(rank)]
               ["WORLD_SIZE" := Itoa(Ranks(req))]
               ["MASTER_PORT" := SignedItoa(PortOf(req))]
               ["LOCAL_RANK" := "0"]
               ["NPROC_PER_NODE" := SignedItoa(req.job.need.gpus)]
  }

  function RankSpec(gid: string, req: GangRequest, rank: nat, now: int): JobSpec {
    JobSpec(RankId(gid, rank), req.job.requirement, req.job.command, now, BasePriority(req.job),
            UserOf(req.job), req.job.walltime, req.job.need, RankEnv(req, rank), 0, gid)
  }

  function RankIds(gid: string, n: nat): (ids: seq<string>)
    ensures |ids| == n
    ensures forall r | 0 <= r < n :: ids[r] == RankId(gid, r)
  {
    if n == 0 then [] else RankIds(gid, n - 1) + [RankId(gid, n - 1)]
  }

  /** Enqueue ranks from `rank` on until the queue is full. */
  function AdmitRanks(s: Sched, gid: string, req: GangRequest, rank: nat, now: int): Sched
    decreases Ranks(req) - rank
  {
    if rank >= Ranks(req) || Full(s) then s
    else AdmitRanks(Enqueue(s, NewJob(RankSpec(gid, req, rank, now))), gid, req, rank + 1, now)
  }

  predicate AllAdmitted(s: Sched, gid: string, req: GangRequest, rank: nat, now: int)
    decreases Ranks(req) - rank
  {
    rank >= Ranks(req)
    || (!Full(s) && AllAdmitted(Enqueue(s, NewJob(RankSpec(gid, req, rank, now))), gid, req, rank + 1, now))
  }

  function GangRec(gid: string, req: GangRequest, now: int): GroupRec {
    GroupRec(gid, RankIds(gid, Ranks(req)), Ranks(req), req.job.need.gpus, PortOf(req), now, GroupPending)
  }

  /** A full queue stops admission half way: earlier ranks stay queued and no
      group is registered. */
  function SubmitGang(m: Master, gid: string, req: GangRequest, now: int): Master {
    var s := AdmitRanks(m.sched, gid, req, 0, now);
    m.(sched := if AllAdmitted(m.sched, gid, req, 0, now) then PutGroup(s, GangRec(gid, req, now)) else s)
  }

  // ---------- cancellation ----------

  /** Cancel one job, release what it holds and tell its worker. */
  function CancelJob(m: Master, id: string, now: int): Master {
    if !Cancellable(m.sched, id) then m
    else
      var s := Cancel(m.sched, id, now);
      var job := s.jobs[id];
      if job.worker == "" then m.(sched := s)
      else m.(sched := s, ledger := Released(m.ledger, job.worker, job.spec.need),
              sent := m.sent + [Kill(job.worker, id)])
  }

  function CancelSiblings(m: Master, ids: seq<string>, spared: string, now: int): Master
    decreases |ids|
  {
    if ids == [] then m
    else CancelSiblings(if ids[0] == spared then m else CancelJob(m, ids[0], now), ids[1..], spared, now)
  }

  // ---------- reports ----------

  datatype Result = Result(jobId: string, success: bool, output: string, error: string, worker: string)

  predicate Contains(s: string, sub: string) {
    sub <= s || (s != [] && Contains(s[1..], sub))
  }

  /** Failures that say nothing about the node. */
  predicate IsUserError(error: string) {
    "exit status" <= error || error == "cancelled" || Contains(error, "walltime exceeded")
  }

  function Judged(b: Breaker, r: Result, now: int): Breaker {
    if r.success then Cleared(b, r.worker)
    else if IsUserError(r.error) then b
    else Counted(b, r.worker, r.jobId, now)
  }

  function ReleasedIfPlaced(l: Ledger, job: JobRec): Ledger {
    if job.worker != "" then Released(l, job.worker, job.spec.need) else l
  }

  function Billed(usage: map<string, real>, job: JobRec): map<string, real> {
    var dur := job.endTime - job.startTime;
    if dur > 0 then Fairshare.Recorded(usage, job.spec.user, dur as real / SECOND as real) else usage
  }

  function Backoff(attempt: int): int {
    attempt * attempt * 10 * SECOND
  }

  predicate Retries(job: JobRec, r: Result) {
    !r.success && job.spec.groupId == "" && job.retryCount < job.spec.maxRetries
  }

  predicate GivesUp(job: JobRec, r: Result) {
    !r.success && job.retryCount >= job.spec.maxRetries && job.spec.maxRetries > 0
  }

  /** ReportResult up to group completion. */
  function Settle(m: Master, r: Result, now: int): Master {
    var s := MarkCompleted(m.sched, r.jobId, r.success, r.output, r.error, now);
    if r.jobId !in s.jobs then m.(sched := s)
    else
      var job := s.jobs[r.jobId];
      m.(sched := s,
         ledger := ReleasedIfPlaced(m.ledger, job),
         breaker := Judged(m.breaker, r, now),
         usage := Billed(m.usage, job),
         timers := if Retries(job, r) then m.timers + [Timer(r.jobId, now + Backoff(job.retryCount + 1))] else m.timers,
         deadLetters := if !Retries(job, r) && GivesUp(job, r) then m.deadLetters[r.jobId := job] else m.deadLetters)
  }

  predicate AllDone(s: Sched, ids: seq<string>) {
    forall id | id in ids :: !InState(s, id, Queued) && !InState(s, id, Running)
  }

  /** handleGroupCompletion */
  function GroupReport(m: Master, gid: string, jobId: string, success: bool, now: int): Master {
    if gid !in m.sched.groups || m.sched.groups[gid].state in {GroupCompleted, GroupFailed} then m
    else if !success then
      var c := CancelSiblings(m, m.sched.groups[gid].jobIds, jobId, now);
      c.(sched := SetGroupState(c.sched, gid, GroupFailed))
    else if AllDone(m.sched, m.sched.groups[gid].jobIds) then
      m.(sched := SetGroupState(m.sched, gid, GroupCompleted))
    else m
  }

  function CompleteGroup(m: Master, r: Result, now: int): Master {
    if r.jobId in m.sched.jobs && m.sched.jobs[r.jobId].spec.groupId != ""
    then GroupReport(m, m.sched.jobs[r.jobId].spec.groupId, r.jobId, r.success, now)
    else m
  }

  /** ReportResult as written: nothing checks that the job is RUNNING. */
  function ReportAsWritten(m: Master, r: Result, now: int): Master {
    CompleteGroup(Settle(m, r, now), r, now)
  }

  /** ReportResult with a guard: for a job that is not RUNNING only the circuit
      breaker and group completion see the report. */
  function ReportGuarded(m: Master, r: Result, now: int): Master {
    if InState(m.sched, r.jobId, Running) then ReportAsWritten(m, r, now)
    else if r.jobId !in m.sched.jobs then m
    else CompleteGroup(m.(breaker := Judged(m.breaker, r, now)), r, now)
  }

  function Acknowledge(m: Master, id: string): Master {
    m.(pending := m.pending - {id})
  }

  // ---------- matching ----------

  /** A member that could take the job now. */
  predicate Eligible(b: Breaker, l: Ledger, matches: Matcher, spec: JobSpec, member: Member, now: int) {
    && member.hasMeta
    && !Blocks(b, member.name, now)
    && CanDispatch(l, member, spec.need)
    && matches(spec.requirement, member)
  }

  datatype Search<+T> = Search(breaker: Breaker, found: Option<T>)

  /** First fit among the members, skipping used names; asking the breaker on
      the way makes it forget expired blocks. */
  function FirstFit(b: Breaker, l: Ledger, matches: Matcher, used: set<string>, spec: JobSpec,
                    members: seq<Member>, now: int): Search<Member>
    decreases |members|
  {
    if members == [] then Search(b, None)
    else
      var member := members[0];
      if member.name in used || !member.hasMeta then
        FirstFit(b, l, matches, used, spec, members[1..], now)
      else if Eligible(b, l, matches, spec, member, now) then
        Search(Queried(b, member.name, now), Some(member))
      else
        FirstFit(Queried(b, member.name, now), l, matches, used, spec, members[1..], now)
  }

  /** One distinct member per rank, first fit in rank order. */
  function MatchRanks(b: Breaker, l: Ledger, matches: Matcher, used: set<string>, ranks: seq<JobRec>,
                      members: seq<Member>, now: int): Search<seq<Member>>
    decreases |ranks|
  {
    if ranks == [] then Search(b, Some([]))
    else
      var fit := FirstFit(b, l, matches, used, ranks[0].spec, members, now);
      if fit.found == None then Search(fit.breaker, None)
      else
        var rest := MatchRanks(fit.breaker, l, matches, used + {fit.found.value.name}, ranks[1..], members, now);
        if rest.found == None then rest
        else Search(rest.breaker, Some([fit.found.value] + rest.found.value))
  }

  // ---------- dispatch ----------

  /** The vendor that the node advertises; the first member of that name that
      advertises anything is asked. */
  function VendorOf(members: seq<Member>, node: string): string {
    if members == [] then ""
    else if members[0].name == node && members[0].hasMeta then members[0].vendor
    else VendorOf(members[1..], node)
  }

  /** "0,1,...", one number per device. */
  function DeviceList(n: nat): string {
    if n == 0 then "" else if n == 1 then Itoa(0) else DeviceList(n - 1) + "," + Itoa(n - 1)
  }

  /** Set the variable unless the user did. */
  function Preset(env: map<string, string>, name: string, value: string): map<string, string> {
    if name in env then env else env[name := value]
  }

  /** The environment of a job that asks for GPUs says which devices it may use. */
  function WithDevices(env: map<string, string>, gpus: int, vendor: string): map<string, string> {
    if gpus <= 0 then env
    else if vendor == "intel" then
      var all := "level_zero:" + DeviceList(gpus);
      Preset(Preset(env, "ONEAPI_DEVICE_SELECTOR", all), "SYCL_DEVICE_FILTER", all)
    else if vendor == "apple" then Preset(env, "METAL_DEVICE_INDEX", DeviceList(gpus))
    else Preset(env, if vendor == "amd" then "HIP_VISIBLE_DEVICES" else "CUDA_VISIBLE_DEVICES", DeviceList(gpus))
  }

  /** What the worker is sent. */
  function Order(members: seq<Member>, spec: JobSpec, env: map<string, string>, node: string): Payload {
    Execute(node, spec.id, spec.command, spec.walltime, WithDevices(env, spec.need.gpus, VendorOf(members, node)))
  }

  /** dispatchJob */
  function Dispatch(m: Master, spec: JobSpec, env: map<string, string>, node: string, now: int): Master {
    m.(sched := MarkRunning(m.sched, spec.id, node, now),
       pending := m.pending[spec.id := now],
       ledger := Allocated(m.ledger, node, spec.need),
       sent := m.sent + [Order(m.members, spec, env, node)])
  }

  /** The queued jobs among the ids, in order. */
  function QueuedAmong(s: Sched, ids: seq<string>): (recs: seq<JobRec>) {
    if ids == [] then []
    else (if InState(s, ids[0], Queued) then [s.jobs[ids[0]]] else []) + QueuedAmong(s, ids[1..])
  }

  function DispatchRanks(m: Master, ranks: seq<JobRec>, nodes: seq<Member>, addr: string, now: int): Master
    requires |ranks| == |nodes|
    decreases |ranks|
  {
    if ranks == [] then m
    else
      var spec := ranks[0].spec;
      var removed := m.(sched := RemoveById(m.sched, spec.id));
      DispatchRanks(Dispatch(removed, spec, spec.env["MASTER_ADDR" := addr], nodes[0].name, now),
                    ranks[1..], nodes[1..], addr, now)
  }

  lemma {:induction false} MatchRanksLength(b: Breaker, l: Ledger, matches: Matcher, used: set<string>,
        ranks: seq<JobRec>,
                         members: seq<Member>, now: int)
    ensures var r := MatchRanks(b, l, matches, used, ranks, members, now);
            r.found != None ==> |r.found.value| == |ranks|
    decreases |ranks|
  {
    if ranks != [] {
      var fit := FirstFit(b, l, matches, used, ranks[0].spec, members, now);
      if fit.found != None {
        MatchRanksLength(fit.breaker, l, matches, used + {fit.found.value.name}, ranks[1..], members, now);
      }
    }
  }

  /** tryDispatchGroup; the code indexes the first matched member, so a group
      must have at least one rank. */
  function TryGang(m: Master, g: GroupRec, matches: Matcher, now: int): Master
    requires g.numNodes >= 1
  {
    var ranks := QueuedAmong(m.sched, g.jobIds);
    if |ranks| != g.numNodes then m
    else
      var fit := MatchRanks(m.breaker, m.ledger, matches, {}, ranks, m.members, now);
      var asked := m.(breaker := fit.breaker);
      if fit.found == None then asked
      else
        MatchRanksLength(m.breaker, m.ledger, matches, {}, ranks, m.members, now);
        var nodes := fit.found.value;
        var started := DispatchRanks(asked, ranks, nodes, nodes[0].addr, now);
        started.(sched := SetGroupState(started.sched, g.id, GroupRunning))
  }

  const GANG_TIMEOUT: int := 300 * SECOND

  function CancelRanks(s: Sched, ids: seq<string>, now: int): Sched
    decreases |ids|
  {
    if ids == [] then s else CancelRanks(Cancel(s, ids[0], now), ids[1..], now)
  }

  predicate TimedOut(g: GroupRec, now: int) {
    g.createdAt != 0 && now - g.createdAt > GANG_TIMEOUT
  }

  function GangTick(m: Master, g: GroupRec, matches: Matcher, now: int): Master
    requires g.numNodes >= 1
  {
    if TimedOut(g, now)
    then m.(sched := SetGroupState(CancelRanks(m.sched, g.jobIds, now), g.id, GroupFailed))
    else TryGang(m, g, matches, now)
  }

  /** Phase 0, over a listing of the pending groups. */
  function GangPhase(m: Master, gs: seq<GroupRec>, matches: Matcher, now: int): Master
    requires forall g | g in gs :: g.numNodes >= 1
    decreases |gs|
  {
    if gs == [] then m else GangPhase(GangTick(m, gs[0], matches, now), gs[1..], matches, now)
  }

  /** Which queued jobs a member can take in the backfill phase. */
  function Fillable(l: Ledger, matches: Matcher, member: Member): JobSpec -> bool {
    (spec: JobSpec) => spec.groupId == "" && CanDispatch(l, member, spec.need) && matches(spec.requirement, member)
  }

  /** Phase 2: the first member that can take some queued single job. */
  function FillPhase(m: Master, members: seq<Member>, matches: Matcher, now: int): Master
    decreases |members|
  {
    if members == [] then m
    else
      var member := members[0];
      if !member.hasMeta then FillPhase(m, members[1..], matches, now)
      else
        var asked := m.(breaker := Queried(m.breaker, member.name, now));
        var fits := Fillable(m.ledger, matches, member);
        var choice := BackfillChoice(m.sched, fits);
        if Blocks(m.breaker, member.name, now) || choice == None then FillPhase(asked, members[1..], matches, now)
        else
          var spec := choice.value.spec;
          Dispatch(asked.(sched := Backfill(m.sched, fits)), spec, spec.env, member.name, now)
  }

  /** Phases 1 and 2. */
  function SinglePhase(m: Master, matches: Matcher, now: int): Master {
    var top := Top(m.sched);
    if top == None || top.value.spec.groupId != "" then m
    else
      var spec := top.value.spec;
      var fit := FirstFit(m.breaker, m.ledger, matches, {}, spec, m.members, now);
      var asked := m.(breaker := fit.breaker);
      if fit.found != None then
        Dispatch(asked.(sched := Dequeue(m.sched)), spec, spec.env, fit.found.value.name, now)
      else
        FillPhase(asked, m.members, matches, now)
  }

  function Tick(m: Master, gs: seq<GroupRec>, matches: Matcher, now: int): Master
    requires forall g | g in gs :: g.numNodes >= 1
  {
    SinglePhase(GangPhase(m, gs, matches, now), matches, now)
  }

  // ---------- enforcers ----------

  predicate Overran(rec: JobRec, now: int) {
    rec.spec.walltime > 0 && now > rec.startTime + rec.spec.walltime * SECOND
  }

  /** One job of the walltime sweep, from its snapshot; Cancel's result is ignored. */
  function Kill1(m: Master, rec: JobRec, now: int): Master {
    if !Overran(rec, now) then m
    else m.(sched := Cancel(m.sched, rec.spec.id, now),
            ledger := ReleasedIfPlaced(m.ledger, rec),
            sent := m.sent + [Kill(rec.worker, rec.spec.id)])
  }

  function WalltimeSweep(m: Master, running: seq<JobRec>, now: int): Master
    decreases |running|
  {
    if running == [] then m else WalltimeSweep(Kill1(m, running[0], now), running[1..], now)
  }

  const HANDSHAKE_TIMEOUT: int := 10 * SECOND

  predicate Expired(m: Master, id: string, now: int) {
    id in m.pending && now - m.pending[id] > HANDSHAKE_TIMEOUT
  }

  /** A listing of the expired handshakes, in any order. */
  ghost predicate ListsExpired(m: Master, ids: seq<string>, now: int) {
    && (forall i, j | 0 <= i < j < |ids| :: ids[i] != ids[j])
    && (forall id :: id in ids <==> Expired(m, id, now))
  }

  function Requeue1(m: Master, id: string): Master {
    if !InState(m.sched, id, Running) then m
    else m.(sched := RequeueRunning(m.sched, id), ledger := ReleasedIfPlaced(m.ledger, m.sched.jobs[id]))
  }

  function RequeueAll(m: Master, ids: seq<string>): Master
    decreases |ids|
  {
    if ids == [] then m else RequeueAll(Requeue1(m, ids[0]), ids[1..])
  }

  /** dispatchTimeoutEnforcer over a listing of the expired entries. */
  function HandshakeSweep(m: Master, expired: seq<string>): Master {
    RequeueAll(m.(pending := m.pending - (set id | id in expired)), expired)
  }

  function RetryFires(m: Master, i: nat): Master
    requires i < |m.timers|
  {
    m.(timers := m.timers[..i] + m.timers[i + 1..],
       sched := Requeue(m.sched, m.timers[i].jobId, true))
  }

  // ---------- membership ----------

  /** One job of OnLeave, from its snapshot. */
  function Lose1(m: Master, node: string, rec: JobRec, now: int): Master {
    var s := MarkCompleted(m.sched, rec.spec.id, false, "", "worker node lost", now);
    var gid := rec.spec.groupId;
    m.(ledger := Released(m.ledger, node, rec.spec.need),
       sched := if gid != "" && gid in s.groups && s.groups[gid].state == GroupRunning
                then SetGroupState(s, gid, GroupFailed) else s)
  }

  function LoseAll(m: Master, node: string, recs: seq<JobRec>, now: int): Master
    decreases |recs|
  {
    if recs == [] then m else LoseAll(Lose1(m, node, recs[0], now), node, recs[1..], now)
  }

  function Others(members: seq<Member>, name: string): (r: seq<Member>)
    ensures forall x :: x in r <==> x in members && x.name != name
  {
    if members == [] then []
    else (if members[0].name == name then [] else [members[0]]) + Others(members[1..], name)
  }

  function NodeLeaves(m: Master, name: string, recs: seq<JobRec>, now: int): Master {
    LoseAll(m.(members := Others(m.members, name)), name, recs, now)
  }

  // ---------- the database writer ----------

  function Applied(img: Image, s: Sched, op: WriteOp): Image {
    match op
    case JobWrite(id) => if id in s.jobs then img.(jobs := img.jobs[id := s.jobs[id]]) else img
    case GroupWrite(id) => if id in s.groups then img.(groups := img.groups[id := s.groups[id]]) else img
  }

  /** The writer takes one operation and saves the object as it is now. */
  function WriteOne(m: Master): Master
    requires m.sched.writes != []
  {
    m.(saved := Applied(m.saved, m.sched, m.sched.writes[0]),
       sched := m.sched.(writes := m.sched.writes[1..]))
  }
}
