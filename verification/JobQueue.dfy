/** The priority queue of pkg/scheduler/queue.go: a slice of job pointers, each
    job carrying the index at which the slice holds it. */
module JobQueue {
  import opened Types
  import opened HeapOrder

  class Job {
    const spec: JobSpec
    var retryCount: int
    var state: JobState
    var worker: string
    var startTime: int
    var endTime: int
    var output: string
    var error: string
    var index: int  // position in the heap, -1 when outside

    constructor (rec: JobRec)
      ensures Rec() == rec && index == -1
    {
      spec, retryCount, state, worker := rec.spec, rec.retryCount, rec.state, rec.worker;
      startTime, endTime, output, error := rec.startTime, rec.endTime, rec.output, rec.error;
      index := -1;
    }

    /** The serialised image of the job. */
    function Rec(): JobRec
      reads this
    {
      JobRec(spec, retryCount, state, worker, startTime, endTime, output, error)
    }

    /** Assign every runtime field. */
    method Set(rec: JobRec)
      requires rec.spec == spec
      modifies this
      ensures Rec() == rec && index == old(index)
    {
      retryCount, state, worker := rec.retryCount, rec.state, rec.worker;
      startTime, endTime, output, error := rec.startTime, rec.endTime, rec.output, rec.error;
    }
  }

  function Specs(items: seq<Job>): (r: seq<JobSpec>)
    ensures |r| == |items|
    ensures forall i | 0 <= i < |items| :: r[i] == items[i].spec
  {
    seq(|items|, i requires 0 <= i < |items| => items[i].spec)
  }

  lemma SpecsSwapped(items: seq<Job>, i: nat, j: nat)
    requires i < |items| && j < |items|
    ensures Specs(Swapped(items, i, j)) == Swapped(Specs(items), i, j)
  {
  }

  class JobQueue {
    var items: seq<Job>

    constructor ()
      ensures items == []
    {
      items := [];
    }

    /** Every job in the slice knows where it is. */
    ghost predicate Indexed()
      reads this, Members()
    {
      forall i | 0 <= i < |items| :: items[i].index == i
    }

    ghost function View(): seq<JobSpec>
      reads this
    {
      Specs(items)
    }

    /** The jobs in the slice, whatever their order. */
    ghost function Members(): set<Job>
      reads this
    {
      set x | x in items
    }

    method Swap(i: nat, j: nat)
      requires i < |items| && j < |items|
      modifies this, Members()`index
      ensures old(Indexed()) ==> Indexed()
      ensures Members() == old(Members())
      ensures items == Swapped(old(items), i, j)
      ensures View() == Swapped(old(View()), i, j)
    {
      SpecsSwapped(items, i, j);
      items := items[i := items[j]][j := items[i]];
      items[i].index := i;
      items[j].index := j;
      assert forall x | x in old(items) :: x == items[i] || x == items[j] || x in items;
    }

    /** heap.up */
    method SiftUp(start: nat)
      requires start < |items|
      modifies this, Members()`index
      ensures old(Indexed()) ==> Indexed()
      ensures Members() == old(Members())
      ensures View() == Up(old(View()), start)
      ensures forall k | start < k < |items| :: items[k] == old(items)[k]
    {
      var j := start;
      while true
        invariant 0 <= j <= start < |items|
        invariant old(Indexed()) ==> Indexed()
        invariant Members() == old(Members())
        invariant |items| == old(|items|)
        invariant Up(View(), j) == Up(old(View()), start)
        invariant forall k | start < k < |items| :: items[k] == old(items)[k]
        decreases j
      {
        var i := Parent(j);
        if i == j || !Less(items[j].spec, items[i].spec) {
          break;
        }
        Swap(i, j);
        j := i;
      }
    }

    /** One round of heap.down's loop: the child to exchange with, if any. */
    method ChildToRaise(i: nat, n: nat) returns (sinks: bool, j: nat)
      requires n <= |items|
      ensures sinks <==> Sinks(View(), i, n)
      ensures sinks ==> j == SmallerChild(View(), i, n)
    {
      j := 2 * i + 1;
      if j >= n {
        return false, j;
      }
      var right := j + 1;
      if right < n && Less(items[right].spec, items[j].spec) {
        j := right;
      }
      sinks := Less(items[j].spec, items[i].spec);
    }

    /** heap.down on the first n slots; reports whether anything moved. */
    method SiftDown(start: nat, n: nat) returns (moved: bool)
      requires Indexed() && n <= |items|
      modifies this, Members()`index
      ensures Indexed() && Members() == old(Members())
      ensures View() == Down(old(View()), start, n)
      ensures forall k | n <= k < |items| :: items[k] == old(items)[k]
      ensures moved <==> Sinks(old(View()), start, n)
    {
      ghost var before := View();
      var i := start;
      var sinks, j := ChildToRaise(i, n);
      moved := sinks;
      while sinks
        invariant 0 <= i
        invariant Indexed() && Members() == old(Members())
        invariant |items| == |before|
        invariant Down(View(), i, n) == Down(before, start, n)
        invariant sinks <==> Sinks(View(), i, n)
        invariant sinks ==> j == SmallerChild(View(), i, n)
        invariant forall k | n <= k < |items| :: items[k] == old(items)[k]
        decreases n - i
      {
        Swap(i, j);
        i := j;
        sinks, j := ChildToRaise(i, n);
      }
    }

    /** JobQueue.Push: append and set the back pointer. */
    method Append(x: Job)
      modifies this, x`index
      ensures old(Indexed()) && x !in old(items) ==> Indexed()
      ensures items == old(items) + [x]
    {
      x.index := |items|;
      items := items + [x];
    }

    /** JobQueue.Pop: cut off the last element. */
    method RemoveLast() returns (x: Job)
      requires Indexed() && items != []
      modifies this, {items[|items| - 1]}`index
      ensures Indexed() && items == old(items[..|items| - 1])
      ensures x == old(items[|items| - 1]) && x.index == -1
    {
      x := items[|items| - 1];
      x.index := -1;
      items := items[..|items| - 1];
    }

    /** heap.Push, which does not look whether the slice holds the job already; if
        not, every job still knows where it is. */
    method Push(x: Job)
      modifies this, Members()`index, x`index
      ensures old(Indexed()) && x !in old(items) ==> Indexed()
      ensures Members() == old(Members()) + {x}
      ensures View() == Pushed(old(View()), x.spec)
    {
      Append(x);
      assert View() == old(View()) + [x.spec];
      SiftUp(|items| - 1);
    }

    /** heap.Pop */
    method Pop() returns (x: Job)
      requires Indexed() && items != []
      modifies this, Members()`index
      ensures Indexed() && Members() == old(Members()) - {x}
      ensures x == old(items)[0] && x.index == -1
      ensures View() == Popped(old(View()))
    {
      var n := |items| - 1;
      Swap(0, n);
      var _ := SiftDown(0, n);
      ghost var before := items;
      x := RemoveLast();
      assert before == items + [x];
      assert View() == Specs(before)[..|items|];
    }

    /** heap.Remove's rearrangement: bring position i to the end, repair the rest. */
    method MoveToEnd(i: nat)
      requires Indexed() && i < |items| - 1
      modifies this, Members()`index
      ensures Indexed() && Members() == old(Members())
      ensures View() == Sifted(old(View()), i)
      ensures |items| == old(|items|) && items[|items| - 1] == old(items)[i]
    {
      var n := |items| - 1;
      Swap(i, n);
      var moved := SiftDown(i, n);
      if !moved {
        SiftUp(i);
      }
    }

    /** heap.Remove: whatever the position, the job that sat there leaves, its
        index becomes -1 and every other job keeps a correct index. */
    method Remove(i: nat) returns (x: Job)
      requires Indexed() && i < |items|
      modifies this, Members()`index
      ensures Indexed() && Members() == old(Members()) - {x}
      ensures x == old(items)[i] && x.index == -1
      ensures View() == Removed(old(View()), i)
    {
      if i != |items| - 1 {
        MoveToEnd(i);
      }
      ghost var before := items;
      x := RemoveLast();
      assert before == items + [x];
      assert View() == Specs(before)[..|items|];
    }
  }
}
