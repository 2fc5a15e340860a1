/** Go's container/heap over (priority, submit time), as functions on sequences.
    The imperative queue in JobQueue.dfy is proved to compute exactly these. */
module HeapOrder {
  import opened Types

  predicate Less(a: JobSpec, b: JobSpec) {
    if a.priority == b.priority then a.submitTime < b.submitTime else a.priority < b.priority
  }

  function Parent(k: nat): nat {
    if k == 0 then 0 else (k - 1) / 2
  }

  /** Element k is not smaller than its parent. */
  predicate Fits(q: seq<JobSpec>, k: nat)
    requires k < |q|
  {
    !Less(q[k], q[Parent(k)])
  }

  /** The first n elements form a min-heap. */
  ghost predicate OrderedTo(q: seq<JobSpec>, n: nat)
    requires n <= |q|
  {
    forall k: nat | 1 <= k < n :: Fits(q, k)
  }

  ghost predicate Ordered(q: seq<JobSpec>) {
    OrderedTo(q, |q|)
  }

  function Swapped<T>(q: seq<T>, i: nat, j: nat): (r: seq<T>)
    requires i < |q| && j < |q|
    ensures |r| == |q|
    ensures r[i] == q[j] && r[j] == q[i]
    ensures forall k | 0 <= k < |q| && k != i && k != j :: r[k] == q[k]
  {
    q[i := q[j]][j := q[i]]
  }

  lemma SwapPermutes<T>(q: seq<T>, i: nat, j: nat)
    requires i < |q| && j < |q|
    ensures multiset(Swapped(q, i, j)) == multiset(q)
  {
  }

  /** heap.up */
  function Up(q: seq<JobSpec>, j: nat): (r: seq<JobSpec>)
    requires j < |q|
    ensures |r| == |q|
    decreases j
  {
    var i := Parent(j);
    if i == j || !Less(q[j], q[i]) then q else Up(Swapped(q, i, j), i)
  }

  /** The child that heap.down would exchange with position i, if any. */
  function SmallerChild(q: seq<JobSpec>, i: nat, n: nat): nat
    requires 2 * i + 1 < n <= |q|
  {
    var left := 2 * i + 1;
    if left + 1 < n && Less(q[left + 1], q[left]) then left + 1 else left
  }

  predicate Sinks(q: seq<JobSpec>, i: nat, n: nat)
    requires n <= |q|
  {
    2 * i + 1 < n && Less(q[SmallerChild(q, i, n)], q[i])
  }

  /** heap.down on the first n elements. */
  function Down(q: seq<JobSpec>, i: nat, n: nat): (r: seq<JobSpec>)
    requires n <= |q|
    ensures |r| == |q|
    decreases n - i
  {
    if !Sinks(q, i, n) then q
    else
      var j := SmallerChild(q, i, n);
      Down(Swapped(q, i, j), j, n)
  }

  /** heap.Push */
  function Pushed(q: seq<JobSpec>, x: JobSpec): seq<JobSpec> {
    Up(q + [x], |q|)
  }

  /** What heap.Pop leaves behind. */
  function Popped(q: seq<JobSpec>): seq<JobSpec>
    requires q != []
  {
    var n := |q| - 1;
    Down(Swapped(q, 0, n), 0, n)[..n]
  }

  /** What heap.Remove leaves behind. */
  function Removed(q: seq<JobSpec>, i: nat): seq<JobSpec>
    requires i < |q|
  {
    var n := |q| - 1;
    if i == n then q[..n] else Sifted(q, i)[..n]
  }

  // ---------- heap order ----------

  /** Only edges at position i can be out of order, and i's children already fit
      under i's parent. */
  ghost predicate MisfitAt(q: seq<JobSpec>, i: nat, n: nat)
    requires i < n <= |q|
  {
    && (forall k: nat | 1 <= k < n && k != i && Parent(k) != i :: Fits(q, k))
    && (i == 0 || forall k: nat | 1 <= k < n && Parent(k) == i :: !Less(q[k], q[Parent(i)]))
  }

  /** As MisfitAt, with position i in order with its children. */
  ghost predicate MisfitAbove(q: seq<JobSpec>, i: nat, n: nat)
    requires i < n <= |q|
  {
    && (forall k: nat | 1 <= k < n && k != i :: Fits(q, k))
    && (i == 0 || forall k: nat | 1 <= k < n && Parent(k) == i :: !Less(q[k], q[Parent(i)]))
  }

  /** As MisfitAt, with position i in order with its parent. */
  ghost predicate MisfitBelow(q: seq<JobSpec>, i: nat, n: nat)
    requires i < n <= |q|
  {
    MisfitAt(q, i, n) && (i == 0 || Fits(q, i))
  }

  lemma RiseStep(q: seq<JobSpec>, j: nat, n: nat)
    requires 0 < j < n <= |q| && MisfitAbove(q, j, n) && Less(q[j], q[Parent(j)])
    ensures MisfitAbove(Swapped(q, Parent(j), j), Parent(j), n)
  {
    var i := Parent(j);
    var s := Swapped(q, i, j);
    forall k: nat | 1 <= k < n && k != i ensures Fits(s, k) {
      assert k != j ==> Fits(q, k);
    }
    if i != 0 {
      forall k: nat | 1 <= k < n && Parent(k) == i ensures !Less(s[k], s[Parent(i)]) {
        assert Fits(q, i);
        assert k != j ==> Fits(q, k);
      }
    }
  }

  /** Sifting up repairs a heap whose only misfit is position j. */
  lemma {:induction false} UpRestoresOrder(q: seq<JobSpec>, j: nat, n: nat)
    requires j < n <= |q| && MisfitAbove(q, j, n)
    ensures OrderedTo(Up(q, j), n)
    decreases j
  {
    var i := Parent(j);
    if i != j && Less(q[j], q[i]) {
      RiseStep(q, j, n);
      UpRestoresOrder(Swapped(q, i, j), i, n);
    }
  }

  /** After one exchange with the smaller child, only the child's subtree may
      be out of order. */
  lemma SinkStep(q: seq<JobSpec>, i: nat, n: nat)
    requires i < n <= |q| && Sinks(q, i, n) && MisfitAt(q, i, n)
    ensures MisfitBelow(Swapped(q, i, SmallerChild(q, i, n)), SmallerChild(q, i, n), n)
  {
    var j := SmallerChild(q, i, n);
    var s := Swapped(q, i, j);
    assert Parent(j) == i;
    forall k: nat | 1 <= k < n && Parent(k) != j ensures Fits(s, k) {
      assert Parent(k) != i && k != i ==> Fits(q, k);
    }
    forall k: nat | 1 <= k < n && Parent(k) == j ensures !Less(s[k], s[i]) {
      assert Fits(q, k);
    }
  }

  lemma NotLessTransitive(a: JobSpec, b: JobSpec, c: JobSpec)
    requires !Less(a, b) && !Less(b, c)
    ensures !Less(a, c)
  {
  }

  lemma ChildIs(k: nat, i: nat)
    requires 1 <= k && Parent(k) == i
    ensures k == 2 * i + 1 || k == 2 * i + 2
  {
  }

  /** A position that does not sink is in order with its children. */
  lemma RestStep(q: seq<JobSpec>, i: nat, n: nat)
    requires i < n <= |q| && !Sinks(q, i, n) && MisfitAt(q, i, n)
    ensures MisfitAbove(q, i, n)
  {
    forall k: nat | 1 <= k < n && k != i ensures Fits(q, k) {
      if Parent(k) == i {
        ChildIs(k, i);
        var c := SmallerChild(q, i, n);
        assert !Less(q[k], q[c]);
        NotLessTransitive(q[k], q[c], q[i]);
      }
    }
  }

  /** Sifting down repairs a heap whose only misfits are below position i. */
  lemma {:induction false} DownRestoresOrder(q: seq<JobSpec>, i: nat, n: nat)
    requires i < n <= |q| && MisfitBelow(q, i, n)
    ensures OrderedTo(Down(q, i, n), n)
    decreases n - i
  {
    if Sinks(q, i, n) {
      SinkStep(q, i, n);
      DownRestoresOrder(Swapped(q, i, SmallerChild(q, i, n)), SmallerChild(q, i, n), n);
    } else {
      RestStep(q, i, n);
    }
  }

  /** The two ways heap.Remove repairs a replaced element. */
  lemma SinkingRestoresOrder(q: seq<JobSpec>, i: nat, n: nat)
    requires i < n <= |q| && MisfitAt(q, i, n) && Sinks(q, i, n)
    ensures OrderedTo(Down(q, i, n), n)
  {
    SinkStep(q, i, n);
    DownRestoresOrder(Swapped(q, i, SmallerChild(q, i, n)), SmallerChild(q, i, n), n);
  }

  lemma RisingRestoresOrder(q: seq<JobSpec>, i: nat, n: nat)
    requires i < n <= |q| && MisfitAt(q, i, n) && !Sinks(q, i, n)
    ensures OrderedTo(Up(q, i), n)
  {
    RestStep(q, i, n);
    UpRestoresOrder(q, i, n);
  }

  // ---------- contents ----------

  lemma {:induction false} UpPermutes(q: seq<JobSpec>, j: nat)
    requires j < |q|
    ensures multiset(Up(q, j)) == multiset(q)
    decreases j
  {
    var i := Parent(j);
    if i != j && Less(q[j], q[i]) {
      SwapPermutes(q, i, j);
      UpPermutes(Swapped(q, i, j), i);
    }
  }

  lemma {:induction false} DownPermutes(q: seq<JobSpec>, i: nat, n: nat)
    requires n <= |q|
    ensures multiset(Down(q, i, n)) == multiset(q)
    decreases n - i
  {
    if Sinks(q, i, n) {
      var j := SmallerChild(q, i, n);
      SwapPermutes(q, i, j);
      DownPermutes(Swapped(q, i, j), j, n);
    }
  }

  lemma PrefixOrdered(q: seq<JobSpec>, n: nat)
    requires n <= |q| && OrderedTo(q, n)
    ensures Ordered(q[..n])
  {
    forall k: nat | 1 <= k < n ensures Fits(q[..n], k) {
      assert Fits(q, k);
    }
  }

  lemma {:induction false} UpKeepsAbove(q: seq<JobSpec>, j: nat, k: nat)
    requires j < k < |q|
    ensures Up(q, j)[k] == q[k]
    decreases j
  {
    var i := Parent(j);
    if i != j && Less(q[j], q[i]) {
      UpKeepsAbove(Swapped(q, i, j), i, k);
    }
  }

  lemma {:induction false} DownKeepsTail(q: seq<JobSpec>, i: nat, n: nat, k: nat)
    requires n <= k < |q|
    ensures Down(q, i, n)[k] == q[k]
    decreases n - i
  {
    if Sinks(q, i, n) {
      var j := SmallerChild(q, i, n);
      DownKeepsTail(Swapped(q, i, j), j, n, k);
    }
  }

  /** Pushing keeps heap order and adds exactly x. */
  lemma PushCorrect(q: seq<JobSpec>, x: JobSpec)
    requires Ordered(q)
    ensures Ordered(Pushed(q, x))
    ensures multiset(Pushed(q, x)) == multiset(q) + multiset{x}
  {
    var s := q + [x];
    forall k: nat | 1 <= k < |q| ensures Fits(s, k) {
      assert Fits(q, k);
    }
    UpRestoresOrder(s, |q|, |s|);
    UpPermutes(s, |q|);
  }

  lemma DropLast(q: seq<JobSpec>)
    requires q != []
    ensures multiset(q[..|q| - 1]) == multiset(q) - multiset{q[|q| - 1]}
  {
    assert q == q[..|q| - 1] + [q[|q| - 1]];
  }

  /** heap.Remove's repair of position i among the first n elements. */
  function Sift(s: seq<JobSpec>, i: nat, n: nat): (r: seq<JobSpec>)
    requires i < n <= |s|
    ensures |r| == |s|
  {
    if Sinks(s, i, n) then Down(s, i, n) else Up(s, i)
  }

  /** The array just before heap.Remove truncates it. */
  function Sifted(q: seq<JobSpec>, i: nat): (r: seq<JobSpec>)
    requires i < |q| - 1
    ensures |r| == |q|
  {
    Sift(Swapped(q, i, |q| - 1), i, |q| - 1)
  }

  lemma SiftOrder(s: seq<JobSpec>, i: nat, n: nat)
    requires i < n <= |s| && MisfitAt(s, i, n)
    ensures OrderedTo(Sift(s, i, n), n)
  {
    if Sinks(s, i, n) {
      SinkingRestoresOrder(s, i, n);
    } else {
      RisingRestoresOrder(s, i, n);
    }
  }

  lemma SiftPermutes(s: seq<JobSpec>, i: nat, n: nat)
    requires i < n < |s|
    ensures multiset(Sift(s, i, n)) == multiset(s)
    ensures Sift(s, i, n)[n] == s[n]
  {
    if Sinks(s, i, n) {
      DownPermutes(s, i, n);
      DownKeepsTail(s, i, n, n);
    } else {
      UpPermutes(s, i);
      UpKeepsAbove(s, i, n);
    }
  }

  lemma ReplacementMisfits(q: seq<JobSpec>, i: nat)
    requires i < |q| - 1 && Ordered(q)
    ensures MisfitAt(Swapped(q, i, |q| - 1), i, |q| - 1)
  {
    var n := |q| - 1;
    var s := Swapped(q, i, n);
    forall k: nat | 1 <= k < n && k != i && Parent(k) != i ensures Fits(s, k) {
      assert Fits(q, k);
    }
    if i != 0 {
      forall k: nat | 1 <= k < n && Parent(k) == i ensures !Less(s[k], s[Parent(i)]) {
        assert Fits(q, k) && Fits(q, i);
      }
    }
  }

  lemma RemoveKeepsOrder(q: seq<JobSpec>, i: nat)
    requires i < |q| && Ordered(q)
    ensures Ordered(Removed(q, i))
  {
    hide Sift, Up, Down, Sinks, MisfitAt;
    var n := |q| - 1;
    if i == n {
      PrefixOrdered(q, n);
    } else {
      ReplacementMisfits(q, i);
      SiftOrder(Swapped(q, i, n), i, n);
      PrefixOrdered(Sifted(q, i), n);
    }
  }

  /** A rearrangement of q that ends in q[i], cut off at the end. */
  lemma CutRearranged(q: seq<JobSpec>, s: seq<JobSpec>, i: nat)
    requires i < |q| == |s| && multiset(s) == multiset(q) && s[|s| - 1] == q[i]
    ensures multiset(s[..|s| - 1]) == multiset(q) - multiset{q[i]}
  {
    DropLast(s);
  }

  lemma RemoveTakesOne(q: seq<JobSpec>, i: nat)
    requires i < |q|
    ensures multiset(Removed(q, i)) == multiset(q) - multiset{q[i]}
  {
    hide Sift, Up, Down, Sinks;
    var n := |q| - 1;
    if i == n {
      CutRearranged(q, q, i);
    } else {
      SwapPermutes(q, i, n);
      SiftPermutes(Swapped(q, i, n), i, n);
      CutRearranged(q, Sifted(q, i), i);
    }
  }

  /** Removing any position keeps heap order and takes away exactly that job. */
  lemma RemoveCorrect(q: seq<JobSpec>, i: nat)
    requires i < |q| && Ordered(q)
    ensures Ordered(Removed(q, i))
    ensures multiset(Removed(q, i)) == multiset(q) - multiset{q[i]}
  {
    RemoveKeepsOrder(q, i);
    RemoveTakesOne(q, i);
  }

  lemma PopIsRemoveAtZero(q: seq<JobSpec>)
    requires q != []
    ensures Popped(q) == Removed(q, 0)
  {
  }

  /** The root has the smallest priority number, and among those the earliest submit
      time. */
  lemma {:induction false} RootIsMinimal(q: seq<JobSpec>, k: nat)
    requires Ordered(q) && k < |q|
    ensures !Less(q[k], q[0])
    ensures q[0].priority <= q[k].priority
    ensures q[0].priority == q[k].priority ==> q[0].submitTime <= q[k].submitTime
  {
    if k > 0 {
      assert Fits(q, k);
      RootIsMinimal(q, Parent(k));
    }
  }

  // ---------- dequeuing until empty ----------

  function Drained(q: seq<JobSpec>): seq<JobSpec>
    decreases |q|
  {
    if q == [] then [] else [q[0]] + Drained(Popped(q))
  }

  ghost predicate Sorted(d: seq<JobSpec>) {
    forall a, b | 0 <= a < b < |d| :: !Less(d[b], d[a])
  }

  lemma RootBelowAll(q: seq<JobSpec>, x: JobSpec)
    requires Ordered(q) && x in multiset(q)
    ensures !Less(x, q[0])
  {
    var k :| 0 <= k < |q| && q[k] == x;
    RootIsMinimal(q, k);
  }

  lemma PopCorrect(q: seq<JobSpec>)
    requires q != [] && Ordered(q)
    ensures Ordered(Popped(q))
    ensures multiset(Popped(q)) == multiset(q) - multiset{q[0]}
  {
    PopIsRemoveAtZero(q);
    RemoveCorrect(q, 0);
  }

  lemma {:induction false} DrainPermutes(q: seq<JobSpec>)
    requires Ordered(q)
    ensures multiset(Drained(q)) == multiset(q)
    decreases |q|
  {
    if q != [] {
      PopCorrect(q);
      DrainPermutes(Popped(q));
      assert q[0] in multiset(q);
    }
  }

  lemma ConsSorted(x: JobSpec, d: seq<JobSpec>)
    requires Sorted(d)
    requires forall y | y in multiset(d) :: !Less(y, x)
    ensures Sorted([x] + d)
  {
    forall b | 0 <= b < |d| ensures !Less(d[b], x) {
      assert d[b] in multiset(d);
    }
  }

  /** Sorted by priority number, and among equal numbers by submit time. */
  ghost predicate InTurn(d: seq<JobSpec>) {
    forall a, b | 0 <= a < b < |d| ::
      d[a].priority <= d[b].priority && (d[a].priority == d[b].priority ==> d[a].submitTime <= d[b].submitTime)
  }

  lemma SortedIsInTurn(d: seq<JobSpec>)
    ensures Sorted(d) <==> InTurn(d)
  {
  }

  /** Dequeue-until-empty yields a permutation of the heap, in turn. */
  lemma DrainSorts(q: seq<JobSpec>)
    requires Ordered(q)
    ensures multiset(Drained(q)) == multiset(q)
    ensures InTurn(Drained(q))
  {
    DrainPermutes(q);
    DrainSorted(q);
    SortedIsInTurn(Drained(q));
  }

  lemma {:induction false} DrainSorted(q: seq<JobSpec>)
    requires Ordered(q)
    ensures Sorted(Drained(q))
    decreases |q|
  {
    if q != [] {
      PopCorrect(q);
      var rest := Popped(q);
      DrainPermutes(rest);
      DrainSorted(rest);
      hide Ordered, Less, Popped;
      forall y | y in multiset(Drained(rest)) ensures !Less(y, q[0]) {
        RootBelowAll(q, y);
      }
      ConsSorted(q[0], Drained(rest));
    }
  }

  /** The smaller priority number goes first. */
  lemma SmallerPriorityFirst(q: seq<JobSpec>, a: nat, b: nat)
    requires Ordered(q)
    requires a < |Drained(q)| && b < |Drained(q)|
    requires Drained(q)[a].priority < Drained(q)[b].priority
    ensures a < b
  {
    DrainSorts(q);
  }

  /** A job that was put back keeps its place: it is dequeued before every job
      of the same priority that was submitted strictly later. */
  lemma EarlierSubmissionFirst(q: seq<JobSpec>, a: nat, b: nat)
    requires Ordered(q)
    requires a < |Drained(q)| && b < |Drained(q)|
    requires Drained(q)[a].priority == Drained(q)[b].priority
    requires Drained(q)[a].submitTime < Drained(q)[b].submitTime
    ensures a < b
  {
    DrainSorts(q);
  }
}
