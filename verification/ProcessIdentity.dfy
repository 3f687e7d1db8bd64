/**
 internal/process/process.go and the process probes that internal/state/lock.go and
 internal/taskservice use.  A (PID, creation time) pair names one incarnation.
 */
module ProcessIdentity {

  /** internal/process/process.go: a creation time of 0 means "not available". */
  function VerifyPID(savedCreateTime: int, currentCreateTime: int): bool {
    if savedCreateTime == 0 then true
    else if currentCreateTime == 0 then true
    else currentCreateTime == savedCreateTime
  }

  /** The processes alive now: PID to creation time. */
  type ProcessTable = map<int, int>

  ghost predicate Running(procs: ProcessTable, pid: int, createTime: int) {
    pid in procs && procs[pid] == createTime
  }

  /** kill(pid, 0) never denies a running process; it may still report a zombie. */
  ghost predicate HonestAliveAnswer(procs: ProcessTable, pid: int, answer: bool) {
    (pid in procs && pid > 0) ==> answer
  }

  /** A creation time read for a running process is its own, or unavailable. */
  ghost predicate HonestCreateTimeAnswer(procs: ProcessTable, pid: int, answer: int) {
    pid in procs ==> answer == 0 || answer == procs[pid]
  }

  /** The identity check errs towards "alive": it only rejects a process that is gone. */
  lemma VerifyPIDErrsTowardsAlive(procs: ProcessTable, pid: int, createTime: int, recorded: int, answer: int)
    requires Running(procs, pid, createTime)
    requires recorded == 0 || recorded == createTime
    requires HonestCreateTimeAnswer(procs, pid, answer)
    ensures VerifyPID(recorded, answer)
  {
  }
}
