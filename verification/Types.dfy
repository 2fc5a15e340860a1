/** The values the master works on: job and group records, resource vectors,
    cluster members and published payloads.  Times are integers counted in
    nanoseconds from Go's zero instant, so `0` is `time.Time{}`. */
module Types {

  const SECOND: int := 1_000_000_000

  datatype Option<+T> = None | Some(value: T)

  datatype JobState = Queued | Running | Completed | Failed | Cancelled

  datatype GroupState = GroupPending | GroupRunning | GroupCompleted | GroupFailed

  /** GPUs, CPU cores and megabytes of memory. */
  datatype Res = Res(gpus: int, cpus: int, mem: int) {
    predicate NonNegative() {
      0 <= gpus && 0 <= cpus && 0 <= mem
    }

    function Plus(other: Res): Res {
      Res(gpus + other.gpus, cpus + other.cpus, mem + other.mem)
    }

    function Minus(other: Res): Res {
      Res(gpus - other.gpus, cpus - other.cpus, mem - other.mem)
    }

    /** Componentwise bound by an advertised total; a node that advertises
        nothing (or a negative number) offers zero. */
    predicate Within(total: Res) {
      && (gpus <= total.gpus || gpus <= 0)
      && (cpus <= total.cpus || cpus <= 0)
      && (mem <= total.mem || mem <= 0)
    }
  }

  const NOTHING := Res(0, 0, 0)

  /** The fields of a job that are never assigned after submission. */
  datatype JobSpec = JobSpec(
    id: string,
    requirement: string,
    command: string,
    submitTime: int,
    priority: int,
    user: string,
    walltime: int,
    need: Res,
    env: map<string, string>,
    maxRetries: int,
    groupId: string)

  /** Every field of a job that is serialised: all but the heap index. */
  datatype JobRec = JobRec(
    spec: JobSpec,
    retryCount: int,
    state: JobState,
    worker: string,
    startTime: int,
    endTime: int,
    output: string,
    error: string)

  datatype GroupRec = GroupRec(
    id: string,
    jobIds: seq<string>,
    numNodes: int,
    gpusPerNode: int,
    masterPort: int,
    createdAt: int,
    state: GroupState)

  /** An operation in the channel of the database writer.  The channel carries
      pointers, so only the identity of the object is fixed when it is sent. */
  datatype WriteOp = JobWrite(id: string) | GroupWrite(id: string)

  /** A cluster member as the gossip layer reports it; without metadata it advertises
      nothing, and no vendor is the empty string. */
  datatype Member = Member(name: string, addr: string, hasMeta: bool, total: Res, vendor: string)

  /** The CEL evaluator: does the member's advertisement satisfy the requirement? */
  type Matcher = (string, Member) -> bool

  /** What the master publishes to the workers. */
  datatype Payload =
    | Execute(node: string, jobId: string, command: string, walltime: int, env: map<string, string>)
    | Kill(node: string, jobId: string)

  /** No trace of an earlier run: a job that waits, however it got there, looks as
      if it had just been submitted, apart from its retry count. */
  predicate Blank(rec: JobRec) {
    rec.worker == "" && rec.startTime == 0 && Unreported(rec)
  }

  predicate Unreported(rec: JobRec) {
    rec.endTime == 0 && rec.output == "" && rec.error == ""
  }

  /** The record of a job that was just submitted. */
  function NewJob(spec: JobSpec): JobRec {
    JobRec(spec, 0, Queued, "", 0, 0, "", "")
  }

  function Get(m: map<string, int>, k: string): int {
    if k in m then m[k] else 0
  }
}
