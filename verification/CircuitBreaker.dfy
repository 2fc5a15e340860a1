/** The circuit breaker of internal/daemon/master.go and the history it encodes. */
module CircuitBreaker {
  import opened Types

  const THRESHOLD := 3
  const COOLDOWN: int := 300 * SECOND

  datatype Breaker = Breaker(
    failures: map<string, int>,
    blocked: map<string, int>,
    lastFailedJob: map<string, string>)

  const CLOSED := Breaker(map[], map[], map[])

  /** The job that failed last on the node, or the empty string. */
  function LastJob(b: Breaker, node: string): string {
    if node in b.lastFailedJob then b.lastFailedJob[node] else ""
  }

  function Counted(b: Breaker, node: string, jobId: string, now: int): Breaker {
    if LastJob(b, node) == jobId then b
    else
      var n := Get(b.failures, node) + 1;
      Breaker(
        b.failures[node := n],
        if n >= THRESHOLD then b.blocked[node := now + COOLDOWN] else b.blocked,
        b.lastFailedJob[node := jobId])
  }

  function Cleared(b: Breaker, node: string): Breaker {
    Breaker(b.failures - {node}, b.blocked - {node}, b.lastFailedJob - {node})
  }

  /** What IsBlocked answers. */
  predicate Blocks(b: Breaker, node: string, now: int) {
    node in b.blocked && now <= b.blocked[node]
  }

  /** What IsBlocked leaves behind: an expired block is forgotten. */
  function Queried(b: Breaker, node: string, now: int): Breaker {
    if node in b.blocked && !Blocks(b, node, now) then Cleared(b, node) else b
  }

  /** Asking about one node never changes the answer for any node. */
  lemma QueryKeepsAnswers(b: Breaker, node: string, now: int, other: string)
    ensures Blocks(Queried(b, node, now), other, now) <==> Blocks(b, other, now)
  {
  }

  class CircuitBreaker {
    var failures: map<string, int>
    var blocked: map<string, int>
    var lastFailedJob: map<string, string>

    constructor ()
      ensures View() == CLOSED
    {
      failures, blocked, lastFailedJob := map[], map[], map[];
    }

    function View(): Breaker
      reads this
    {
      Breaker(failures, blocked, lastFailedJob)
    }

    method RecordFailure(node: string, jobId: string, now: int)
      modifies this
      ensures View() == Counted(old(View()), node, jobId, now)
    {
      var last := if node in lastFailedJob then lastFailedJob[node] else "";
      if last == jobId {
        return;
      }
      lastFailedJob := lastFailedJob[node := jobId];
      failures := failures[node := Get(failures, node) + 1];
      if failures[node] >= 3 {
        blocked := blocked[node := now + 300 * SECOND];
      }
    }

    method RecordSuccess(node: string)
      modifies this
      ensures View() == Cleared(old(View()), node)
    {
      failures := failures - {node};
      blocked := blocked - {node};
      lastFailedJob := lastFailedJob - {node};
    }

    method IsBlocked(node: string, now: int) returns (answer: bool)
      modifies this
      ensures View() == Queried(old(View()), node, now)
      ensures answer <==> Blocks(old(View()), node, now)
    {
      if node !in blocked {
        return false;
      }
      if now > blocked[node] {
        blocked := blocked - {node};
        failures := failures - {node};
        lastFailedJob := lastFailedJob - {node};
        return false;
      }
      answer := true;
    }
  }

  // ---------- the history ----------

  datatype Event =
    | Failure(node: string, jobId: string, at: int)
    | Success(node: string)
    | Query(node: string, at: int)

  function Step(b: Breaker, e: Event): Breaker {
    match e
    case Failure(node, jobId, at) => Counted(b, node, jobId, at)
    case Success(node) => Cleared(b, node)
    case Query(node, at) => Queried(b, node, at)
  }

  function After(h: seq<Event>): Breaker {
    if h == [] then CLOSED else Step(After(h[..|h| - 1]), h[|h| - 1])
  }

  datatype Fault = Fault(jobId: string, at: int)

  /** Collapse each run of consecutive failures of one job to its first. */
  function Collapsed(fs: seq<Fault>): seq<Fault> {
    if fs == [] then []
    else
      var rest := Collapsed(fs[..|fs| - 1]);
      var previous := if |fs| == 1 then "" else fs[|fs| - 2].jobId;
      if fs[|fs| - 1].jobId == previous then rest else rest + [fs[|fs| - 1]]
  }

  /** The third counted failure puts the node out of service, until five minutes after
      the last one. */
  predicate Tripped(fs: seq<Fault>) {
    |Collapsed(fs)| >= 3
  }

  function Deadline(fs: seq<Fault>): int
    requires Tripped(fs)
  {
    Collapsed(fs)[|Collapsed(fs)| - 1].at + 300_000_000_000
  }

  /** All failures of the node since its last reset: a success, or a query after
      the deadline. */
  function Faults(h: seq<Event>, node: string): seq<Fault> {
    if h == [] then []
    else
      var before := Faults(h[..|h| - 1], node);
      match h[|h| - 1]
      case Failure(n, jobId, at) => if n == node then before + [Fault(jobId, at)] else before
      case Success(n) => if n == node then [] else before
      case Query(n, at) => if n == node && Tripped(before) && at > Deadline(before) then [] else before
  }

  /** The three maps say of the node what its failures since the last reset say. */
  ghost predicate Encodes(b: Breaker, fs: seq<Fault>, node: string) {
    && Get(b.failures, node) == |Collapsed(fs)|
    && (node in b.blocked <==> Tripped(fs))
    && (Tripped(fs) ==> b.blocked[node] == Deadline(fs))
    && LastJob(b, node) == (if fs == [] then "" else fs[|fs| - 1].jobId)
  }

  lemma CollapsedGrows(fs: seq<Fault>, f: Fault)
    ensures Collapsed(fs + [f])
         == if f.jobId == (if fs == [] then "" else fs[|fs| - 1].jobId) then Collapsed(fs) else Collapsed(fs) + [f]
  {
    assert (fs + [f])[..|fs|] == fs;
  }

  lemma EncodesStep(b: Breaker, fs: seq<Fault>, node: string, jobId: string, at: int)
    requires Encodes(b, fs, node)
    ensures Encodes(Counted(b, node, jobId, at), fs + [Fault(jobId, at)], node)
  {
    CollapsedGrows(fs, Fault(jobId, at));
  }

  /** After any history the breaker is, for every node, exactly the count of its
      collapsed failures since the last reset, blocked iff that reaches three,
      until the last counted failure plus five minutes. */
  lemma {:induction false} RefinesHistory(h: seq<Event>, node: string)
    ensures Encodes(After(h), Faults(h, node), node)
  {
    if h != [] {
      var before := h[..|h| - 1];
      RefinesHistory(before, node);
      match h[|h| - 1] {
        case Failure(n, jobId, at) =>
          if n == node {
            EncodesStep(After(before), Faults(before, node), node, jobId, at);
          }
        case Success(n) =>
        case Query(n, at) =>
      }
    }
  }

  /** What a caller of IsBlocked learns, in terms of the history alone. */
  lemma BlockedMeansThreeFaults(h: seq<Event>, node: string, now: int)
    ensures Blocks(After(h), node, now)
        <==> Tripped(Faults(h, node)) && now <= Deadline(Faults(h, node))
  {
    RefinesHistory(h, node);
  }

  /** One poisonous job cannot block a node, however often it fails there. */
  lemma {:induction false} RepeatsCountOnce(fs: seq<Fault>, jobId: string)
    requires forall f | f in fs :: f.jobId == jobId
    ensures |Collapsed(fs)| <= 1
    ensures fs == [] ==> Collapsed(fs) == []
  {
    if fs != [] {
      RepeatsCountOnce(fs[..|fs| - 1], jobId);
    }
  }

  // ---------- replaying ----------

  function Replay(b: Breaker, h: seq<Event>): Breaker
    decreases |h|
  {
    if h == [] then b else Replay(Step(b, h[0]), h[1..])
  }

  lemma {:induction false} ReplayAppends(b: Breaker, h: seq<Event>, more: seq<Event>)
    ensures Replay(b, h + more) == Replay(Replay(b, h), more)
    decreases |h|
  {
    if h == [] {
      assert h + more == more;
    } else {
      assert (h + more)[1..] == h[1..] + more;
      ReplayAppends(Step(b, h[0]), h[1..], more);
    }
  }

  lemma {:induction false} AfterReplays(h: seq<Event>, more: seq<Event>)
    ensures After(h + more) == Replay(After(h), more)
    decreases |more|
  {
    if more == [] {
      assert h + more == h;
    } else {
      var h' := h + [more[0]];
      assert h'[..|h|] == h && h' + more[1..] == h + more;
      AfterReplays(h', more[1..]);
    }
  }

  // ---------- what time does to the history ----------

  /** All failures of the node since its last success, whatever was asked. */
  function Since(h: seq<Event>, node: string): seq<Fault> {
    if h == [] then []
    else
      var before := Since(h[..|h| - 1], node);
      match h[|h| - 1]
      case Failure(n, jobId, at) => if n == node then before + [Fault(jobId, at)] else before
      case Success(n) => if n == node then [] else before
      case Query(_, _) => before
  }

  /** How many of the failures happened at `from` or later. */
  function Recent(fs: seq<Fault>, from: int): nat {
    if fs == [] then 0
    else Recent(fs[..|fs| - 1], from) + (if fs[|fs| - 1].at >= from then 1 else 0)
  }

  predicate Timed(e: Event) {
    !e.Success?
  }

  predicate Chronological(h: seq<Event>) {
    forall i, j | 0 <= i < j < |h| && Timed(h[i]) && Timed(h[j]) :: h[i].at <= h[j].at
  }

  predicate Sorted(fs: seq<Fault>) {
    forall i, j | 0 <= i < j < |fs| :: fs[i].at <= fs[j].at
  }

  lemma {:induction false} FaultsSorted(h: seq<Event>, node: string)
    requires Chronological(h)
    ensures Sorted(Faults(h, node))
    ensures forall f | f in Faults(h, node) :: Failure(node, f.jobId, f.at) in h
  {
    if h != [] {
      FaultsSorted(h[..|h| - 1], node);
    }
  }

  lemma {:induction false} CollapsedSorted(fs: seq<Fault>)
    requires Sorted(fs)
    ensures Sorted(Collapsed(fs))
    ensures forall f | f in Collapsed(fs) :: f in fs
  {
    if fs != [] {
      var before := fs[..|fs| - 1];
      CollapsedSorted(before);
      forall f | f in Collapsed(before) ensures f.at <= fs[|fs| - 1].at {
        assert f in before;
      }
    }
  }

  lemma {:induction false} RecentBounds(fs: seq<Fault>, from: int)
    requires Sorted(fs)
    ensures Recent(fs, from) <= |fs|
    ensures fs != [] && fs[|fs| - 1].at < from ==> Recent(fs, from) == 0
  {
    if fs != [] {
      var before := fs[..|fs| - 1];
      RecentBounds(before, from);
      if before != [] {
        assert before[|before| - 1] == fs[|fs| - 2] && fs[|fs| - 2].at <= fs[|fs| - 1].at;
      }
    }
  }

  lemma RecentGrows(fs: seq<Fault>, f: Fault, from: int)
    ensures Recent(fs + [f], from) == Recent(fs, from) + (if f.at >= from then 1 else 0)
  {
    assert (fs + [f])[..|fs|] == fs;
  }

  /** A query can only reset a node whose counted failures are all too old. */
  lemma ResetForgetsOld(h: seq<Event>, node: string, at: int, until: int)
    requires Chronological(h) && Tripped(Faults(h, node)) && Deadline(Faults(h, node)) < at <= until
    ensures Recent(Collapsed(Faults(h, node)), until - COOLDOWN) == 0
  {
    FaultsSorted(h, node);
    CollapsedSorted(Faults(h, node));
    RecentBounds(Collapsed(Faults(h, node)), until - COOLDOWN);
  }

  /** The failures kept hold all recent counted ones among all failures. */
  predicate HoldsRecent(fs: seq<Fault>, all: seq<Fault>, from: int) {
    && Recent(Collapsed(fs), from) >= Recent(Collapsed(all), from)
    && (fs != [] ==> all != [] && fs[|fs| - 1] == all[|all| - 1])
  }

  lemma NothingRecent(from: int)
    ensures HoldsRecent([], [], from)
  {
  }

  lemma HoldsRecentFailure(fs: seq<Fault>, all: seq<Fault>, f: Fault, from: int)
    requires HoldsRecent(fs, all, from) && f.jobId != ""
    ensures HoldsRecent(fs + [f], all + [f], from)
  {
    CollapsedGrows(fs, f);
    CollapsedGrows(all, f);
    RecentGrows(Collapsed(fs), f, from);
    RecentGrows(Collapsed(all), f, from);
  }

  lemma HoldsRecentReset(fs: seq<Fault>, all: seq<Fault>, from: int)
    requires HoldsRecent(fs, all, from) && Recent(Collapsed(fs), from) == 0
    ensures HoldsRecent([], all, from)
  {
  }

  lemma HoldsRecentStep(h: seq<Event>, e: Event, node: string, until: int)
    requires Chronological(h) && HoldsRecent(Faults(h, node), Since(h, node), until - COOLDOWN)
    requires (Timed(e) ==> e.at <= until) && (e.Failure? ==> e.jobId != "")
    ensures HoldsRecent(Faults(h + [e], node), Since(h + [e], node), until - COOLDOWN)
  {
    hide HoldsRecent, Recent, Collapsed, Tripped, Deadline, Chronological;
    assert (h + [e])[..|h|] == h;
    match e {
      case Failure(n, jobId, at) =>
        if n == node {
          HoldsRecentFailure(Faults(h, node), Since(h, node), Fault(jobId, at), until - COOLDOWN);
        }
      case Success(n) =>
        NothingRecent(until - COOLDOWN);
      case Query(n, at) =>
        if n == node && Tripped(Faults(h, node)) && at > Deadline(Faults(h, node)) {
          ResetForgetsOld(h, node, at, until);
          HoldsRecentReset(Faults(h, node), Since(h, node), until - COOLDOWN);
        }
    }
  }

  /** The counted failures of the last five minutes survive every reset by a query. */
  lemma {:induction false} RecentSurvive(h: seq<Event>, node: string, until: int)
    requires Chronological(h) && forall e | e in h && Timed(e) :: e.at <= until
    requires forall e | e in h && e.Failure? :: e.jobId != ""
    ensures HoldsRecent(Faults(h, node), Since(h, node), until - COOLDOWN)
  {
    if h == [] {
      NothingRecent(until - COOLDOWN);
    } else {
      var before, e := h[..|h| - 1], h[|h| - 1];
      assert e in h && before + [e] == h;
      RecentSurvive(before, node, until);
      HoldsRecentStep(before, e, node, until);
    }
  }

  /** With clocks that never go back no block is forgotten early: three counted
      failures since the last success, all within five minutes, block the node. */
  lemma FreshFaultsBlock(h: seq<Event>, node: string, now: int)
    requires Chronological(h) && forall e | e in h && Timed(e) :: e.at <= now
    requires forall e | e in h && e.Failure? :: e.jobId != ""
    requires Recent(Collapsed(Since(h, node)), now - 300_000_000_000) >= 3
    ensures Blocks(After(h), node, now)
  {
    RecentSurvive(h, node, now);
    FaultsSorted(h, node);
    CollapsedSorted(Faults(h, node));
    RecentBounds(Collapsed(Faults(h, node)), now - COOLDOWN);
    BlockedMeansThreeFaults(h, node, now);
  }

  lemma {:induction false} CollapsedWithin(fs: seq<Fault>)
    ensures |Collapsed(fs)| <= |fs|
    ensures forall f | f in Collapsed(fs) :: f in fs
  {
    if fs != [] {
      CollapsedWithin(fs[..|fs| - 1]);
    }
  }

  lemma {:induction false} FaultsWithinSince(h: seq<Event>, node: string)
    ensures |Faults(h, node)| <= |Since(h, node)|
    ensures forall f | f in Faults(h, node) :: f in Since(h, node)
  {
    if h != [] {
      FaultsWithinSince(h[..|h| - 1], node);
    }
  }

  /** Conversely a blocked node failed three times since its last success, the last
      counted time at most five minutes ago. */
  lemma BlockedHasFailed(h: seq<Event>, node: string, now: int)
    requires Blocks(After(h), node, now)
    ensures |Since(h, node)| >= 3
    ensures exists f :: f in Since(h, node) && now <= f.at + 300_000_000_000
  {
    BlockedMeansThreeFaults(h, node, now);
    var fs := Faults(h, node);
    CollapsedWithin(fs);
    FaultsWithinSince(h, node);
    var last := Collapsed(fs)[|Collapsed(fs)| - 1];
    assert last in Collapsed(fs) && now <= last.at + 300_000_000_000;
  }
}
