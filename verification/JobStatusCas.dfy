/** The guarded status updates of the job recorder, as functions of the row's current status. */
module JobStatusCas {
  import opened Domain

  /**
   * claimForAttempt's guard: a first activation takes QUEUED only; a re-execution may
   * also take over a RUNNING row that its dead predecessor left behind.
   */
  predicate CanClaim(st: JobStatus, attemptsStarted: int) {
    st == QUEUED || (attemptsStarted > 1 && st == RUNNING)
  }

  function AfterRequeue(st: JobStatus): JobStatus {
    if st == RUNNING then QUEUED else st
  }

  function AfterPause(st: JobStatus): JobStatus {
    if st == RUNNING then PAUSED else st
  }

  function AfterFinish(st: JobStatus, verdict: JobStatus): JobStatus {
    if IsTerminal(st) then st else verdict
  }
}
