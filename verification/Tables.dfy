/** Rows of test_runs and test_run_shards, and the payloads written into them. */
module Tables {
  import opened Wrappers

  datatype RunStatus = Queued | Running | Cancelling | Completed | Failed | Cancelled {
    predicate Terminal() { Completed? || Failed? || Cancelled? }

    function Rank(): nat {
      match this
      case Queued => 0
      case Running => 1
      case Cancelling => 2
      case _ => 3
    }
  }

  datatype ShardStatus = ShardQueued | ShardRunning | ShardCompleted | ShardFailed {
    predicate Terminal() { ShardCompleted? || ShardFailed? }

    function Rank(): nat {
      match this
      case ShardQueued => 0
      case ShardRunning => 1
      case _ => 2
    }
  }

  /** The error_message column. */
  datatype ErrorText = ShardsFailed(count: nat) | CancelledByUser | Text(message: string)

  /** A shard's nullable result columns. */
  datatype Partial = Partial(
    total: Option<int>, success: Option<int>, failed: Option<int>, latencyCount: Option<int>,
    avgMs: Option<real>, minMs: Option<real>, maxMs: Option<real>, buckets: Option<seq<int>>)

  const NO_PARTIAL := Partial(None, None, None, None, None, None, None, None)

  /** A run's nullable result columns. */
  datatype Columns = Columns(
    total: Option<int>, success: Option<int>, failed: Option<int>,
    avgMs: Option<real>, minMs: Option<real>, maxMs: Option<real>,
    p50Ms: Option<real>, p95Ms: Option<real>, p99Ms: Option<real>)

  const NO_COLUMNS := Columns(None, None, None, None, None, None, None, None, None)

  datatype ShardRow = ShardRow(
    runId: nat, index: nat, virtualUsers: int,
    status: ShardStatus, error: Option<ErrorText>, partial: Partial,
    startedAt: Option<int>, completedAt: Option<int>)

  datatype RunRow = RunRow(
    virtualUsers: int, shardCount: nat,
    status: RunStatus, error: Option<ErrorText>, columns: Columns,
    startedAt: Option<int>, completedAt: Option<int>)

  /** What a worker reports for a shard: completed with numbers, or failed with a message. */
  datatype Report = Report(completed: bool, error: Option<string>, partial: Partial) {
    function Status(): ShardStatus { if completed then ShardCompleted else ShardFailed }
  }

  function TextOf(s: Option<string>): Option<ErrorText> {
    match s
    case Some(m) => Some(Text(m))
    case None => None
  }
}
