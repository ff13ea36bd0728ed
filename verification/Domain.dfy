/** The vocabulary every component shares: job statuses, copy states, control modes. */
module Domain {
  datatype Option<+T> = None | Some(value: T)

  function Lookup<K, V>(m: map<K, V>, k: K): Option<V> {
    if k in m then Some(m[k]) else None
  }

  /** Status of a durable Job row. */
  datatype JobStatus = QUEUED | RUNNING | PAUSED | COMPLETED | FAILED | CANCELED

  predicate IsTerminal(st: JobStatus) {
    st == COMPLETED || st == FAILED || st == CANCELED
  }

  /** Rows that occupy the queue: the scope of the partial unique index ux_job_active_download. */
  predicate IsActive(st: JobStatus) {
    st == QUEUED || st == RUNNING || st == PAUSED
  }

  datatype JobType = DOWNLOAD | VERIFY | ENUMERATE | SOURCE_CHECK | LIVE_CAPTURE | LIVE_PROBE

  /** State of our copy of a video. */
  datatype CopyState =
    | Candidate
    | Queued
    | Downloading
    | Verifying
    | Healthy
    | Failed
    | PartialKept
    | AwaitingVerify

  /** Why a running job's abort fired; Shutdown is set only by the graceful drain. */
  datatype Mode = Cancel | Pause | Shutdown

  /** BullMQ's attempts budget for a DOWNLOAD execution. */
  const DOWNLOAD_ATTEMPTS := 5

  /** BullMQ's largest job priority, 2^21. */
  const BULLMQ_PRIORITY_MAX := 2_097_152
}
