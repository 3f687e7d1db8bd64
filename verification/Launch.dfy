/**
 Start, Stop and Restart of one task (internal/taskservice/lifecycle.go, launch.go, service.go) and
 the start-up of the supervisors they launch, as a transition system.

 Each file read, process probe and lock operation is one step.  supervisor.pid and createtime are
 written in two, since os.WriteFile truncates the file first.  PIDs are reused, and every single read
 may fail, a supervisor's of its own creation time included.  The task lock can be taken over only from a
 crashed holder (LeaseSafety.MutualExclusionHolds); an unlock may give up.  Signals are not modelled: any
 supervisor may end at any moment, which covers every stop and kill.
 */
module Launch {
  import opened Wrappers
  import opened ProcessIdentity

  type OpId = int

  /** The files that decide about a task's supervisor; no pid, createTime 0: missing, empty or not a number. */
  datatype Files = Files(present: bool, pid: Option<int>, createTime: int, exited: bool)

  datatype Boot =
    | Booting                   // launched; supervisor.pid not touched
    | PidCleared                // supervisor.pid truncated
    | PidWritten                // next: read its own creation time
    | OwnRead(own: int)         // which it knows, and saves
    | StampCleared(own: int)    // createtime truncated
    | Ready
    | ExitWritten
    | Gone                      // an --rm task: its directory is removed

  datatype Os = Os(
    procs: ProcessTable,
    incarnations: set<(int, int)>,
    boots: map<int, Boot>)      // the live supervisors of the task

  datatype Pc =
    | WantLock
    | Reread                    // ReadMeta under the lock
    | ReadPid | ProbeAlive(pid: int) | ReadCreate(pid: int) | Compare(pid: int, saved: int)  // verifyAndGetPID
    | ClearExit
    | Launching
    | AwaitExit(pid: int) | AwaitMeta(pid: int) | AwaitPid(pid: int)                     // checkLaunched
    | AwaitCreate(pid: int) | AwaitCompare(pid: int, saved: int)
    | AwaitAlive(pid: int)      // no evidence yet: is the launched process gone?
    | Unlocking
    | Done

  /** `starts`: Start; otherwise Stop or Restart.  `last`: the re-check after the launched process died. */
  datatype Op = Op(starts: bool, pc: Pc, last: bool, crashed: bool)

  datatype State = State(files: Files, os: Os, lock: Option<OpId>, ops: map<OpId, Op>)

  datatype Action =
    | Acquire
    | GiveUp
    | Go(ok: bool)              // the next access; ok: it succeeds
    | Answer(alive: bool)       // of IsAlive
    | Stamp(createTime: int)    // of CreateTime
    | Spawned(pid: int, createTime: int)
    | Expire                    // the launch wait ends without evidence

  datatype Step =
    | Submit(o: OpId, starts: bool)
    | Crash(o: OpId)
    | Spawn(pid: int, createTime: int)  // an unrelated process
    | Die(pid: int)
    | Advance(pid: int, own: int)  // the supervisor's next step; own: what it reads as its creation time
    | RemoveOwn(pid: int)       // an --rm supervisor removes the task directory
    | Do(o: OpId, action: Action)

  /** A live supervisor that still has the task; one that removed its --rm task only has to exit. */
  predicate Serving(os: Os, pid: int) {
    pid in os.boots && !os.boots[pid].Gone?
  }

  predicate FreshProcess(os: Os, pid: int, createTime: int) {
    pid > 0 && createTime > 0 && pid !in os.procs && (pid, createTime) !in os.incarnations
  }

  ghost predicate Ready(s: State, op: Op, a: Action) {
    var pc := op.pc;
    match a
    case Acquire => pc.WantLock? && (s.lock.None? || (s.lock.value in s.ops ==> s.ops[s.lock.value].crashed))
    case GiveUp => pc.WantLock?
    case Go(_) => pc.Reread? || pc.ReadPid? || pc.ReadCreate? || pc.ClearExit? || pc.AwaitExit? || pc.AwaitMeta?
                  || pc.AwaitPid? || pc.AwaitCreate? || pc.Unlocking?
    case Answer(alive) => (pc.ProbeAlive? || pc.AwaitAlive?) && HonestAliveAnswer(s.os.procs, pc.pid, alive)
    case Stamp(ct) => (pc.Compare? || pc.AwaitCompare?) && HonestCreateTimeAnswer(s.os.procs, pc.pid, ct)
    case Spawned(pid, ct) => pc.Launching? && FreshProcess(s.os, pid, ct)
    case Expire => pc.Launching? || pc.AwaitAlive?   // Launch fails, or the deadline or the context ends the wait
  }

  ghost predicate Enabled(s: State, step: Step) {
    match step
    case Submit(o, _) => o !in s.ops
    case Crash(o) => o in s.ops
    case Spawn(pid, ct) => FreshProcess(s.os, pid, ct)
    case Die(pid) => pid in s.os.procs
    case Advance(pid, own) =>
      && pid in s.os.boots && s.files.present && !s.os.boots[pid].ExitWritten? && !s.os.boots[pid].Gone?
      && HonestCreateTimeAnswer(s.os.procs, pid, own)
    case RemoveOwn(pid) => pid in s.os.boots && s.os.boots[pid].ExitWritten? && s.files.present
    case Do(o, a) => o in s.ops && !s.ops[o].crashed && Ready(s, s.ops[o], a)
  }

  /** What follows verifyAndGetPID's answer. */
  function Verdict(op: Op, alive: bool): Op {
    op.(pc := if op.starts && !alive then ClearExit else Unlocking)
  }

  /** No evidence: after the process died, the second failed probe ends the wait. */
  function NoEvidence(op: Op): Op
    requires op.pc.AwaitPid? || op.pc.AwaitCompare?
  {
    op.(pc := if op.last then Unlocking else AwaitAlive(op.pc.pid))
  }

  /** A file access: the files and the operation after it. */
  function Accessed(f: Files, op: Op, ok: bool): (Files, Op) {
    match op.pc
    case Reread => (f, op.(pc := if f.present && ok then ReadPid else Unlocking))
    case ReadPid =>
      (f, if ok && f.present && f.pid.Some? && f.pid.value > 0 then op.(pc := ProbeAlive(f.pid.value))
          else Verdict(op, false))
    case ReadCreate(pid) => (f, op.(pc := Compare(pid, if ok && f.present then f.createTime else 0)))
    case ClearExit => if ok then (f.(exited := false), op.(pc := Launching)) else (f, op.(pc := Unlocking))
    case AwaitExit(pid) => (f, op.(pc := if ok && f.present && f.exited then Unlocking else AwaitMeta(pid)))
    case AwaitMeta(pid) => (f, op.(pc := if !f.present then Unlocking else AwaitPid(pid)))
    case AwaitPid(pid) =>
      (f, if ok && f.present && f.pid == Some(pid) && pid > 0 then op.(pc := AwaitCreate(pid)) else NoEvidence(op))
    case AwaitCreate(pid) => (f, op.(pc := AwaitCompare(pid, if ok && f.present then f.createTime else 0)))
    case _ => (f, op)
  }

  function Answered(op: Op, alive: bool): Op
    requires op.pc.ProbeAlive? || op.pc.AwaitAlive?
  {
    match op.pc
    case ProbeAlive(pid) => if alive then op.(pc := ReadCreate(pid)) else Verdict(op, false)
    case AwaitAlive(pid) => op.(pc := AwaitExit(pid), last := !alive)
    case _ => op
  }

  function Stamped(op: Op, createTime: int): Op
    requires op.pc.Compare? || op.pc.AwaitCompare?
  {
    match op.pc
    case Compare(_, saved) => Verdict(op, VerifyPID(saved, createTime))
    case AwaitCompare(_, saved) => if VerifyPID(saved, createTime) then op.(pc := Unlocking) else NoEvidence(op)
    case _ => op
  }

  function SetOp(s: State, o: OpId, op: Op): State {
    s.(ops := s.ops[o := op])
  }

  function NewProcess(os: Os, pid: int, createTime: int): Os {
    os.(procs := os.procs[pid := createTime], incarnations := os.incarnations + {(pid, createTime)})
  }

  ghost function Acted(s: State, o: OpId, a: Action): State
    requires Enabled(s, Do(o, a))
  {
    var op := s.ops[o];
    match a
    case Acquire => SetOp(s, o, op.(pc := Reread)).(lock := Some(o))
    case GiveUp => SetOp(s, o, op.(pc := Done))
    case Go(ok) =>
      if op.pc.Unlocking? then SetOp(s, o, op.(pc := Done)).(lock := if ok then None else s.lock)
      else var (f, op') := Accessed(s.files, op, ok); SetOp(s, o, op').(files := f)
    case Answer(alive) => SetOp(s, o, Answered(op, alive))
    case Stamp(ct) => SetOp(s, o, Stamped(op, ct))
    case Spawned(pid, ct) =>
      var os := NewProcess(s.os, pid, ct);
      SetOp(s, o, op.(pc := AwaitExit(pid))).(os := os.(boots := os.boots[pid := Booting]))
    case Expire => SetOp(s, o, op.(pc := Unlocking))
  }

  function Wrote(s: State, pid: int, files: Files, boot: Boot): State {
    s.(files := files, os := s.os.(boots := s.os.boots[pid := boot]))
  }

  /** The supervisor writes its PID, then its creation time if it could read it, and at the end exit.json. */
  function Advanced(s: State, pid: int, own: int): State
    requires pid in s.os.boots
  {
    var f := s.files;
    match s.os.boots[pid]
    case Booting => Wrote(s, pid, f.(pid := None), PidCleared)
    case PidCleared => Wrote(s, pid, f.(pid := Some(pid)), PidWritten)
    case PidWritten => Wrote(s, pid, f, if own > 0 then OwnRead(own) else Boot.Ready)
    case OwnRead(stamp) => Wrote(s, pid, f.(createTime := 0), StampCleared(stamp))
    case StampCleared(stamp) => Wrote(s, pid, f.(createTime := stamp), Boot.Ready)
    case Ready => Wrote(s, pid, f.(exited := true), ExitWritten)
    case _ => s
  }

  ghost function Apply(s: State, step: Step): State
    requires Enabled(s, step)
  {
    match step
    case Submit(o, starts) => SetOp(s, o, Op(starts, WantLock, false, false))
    case Crash(o) => SetOp(s, o, s.ops[o].(crashed := true))
    case Spawn(pid, ct) => s.(os := NewProcess(s.os, pid, ct))
    case Die(pid) => s.(os := s.os.(procs := s.os.procs - {pid}, boots := s.os.boots - {pid}))
    case Advance(pid, own) => Advanced(s, pid, own)
    case RemoveOwn(pid) =>
      s.(files := s.files.(present := false), os := s.os.(boots := s.os.boots[pid := Gone]))
    case Do(o, a) => Acted(s, o, a)
  }

  // ---------------------------------------------------------------------------------------
  // The hypotheses

  predicate Awaits(pc: Pc) {
    pc.AwaitExit? || pc.AwaitMeta? || pc.AwaitPid? || pc.AwaitCreate? || pc.AwaitCompare? || pc.AwaitAlive?
  }

  /** A saved creation time that no honest reader will find to contradict the process's. */
  predicate Agrees(os: Os, pid: int, saved: int) {
    pid in os.procs && (saved == 0 || saved == os.procs[pid])
  }

  /** No launch wait expires. */
  predicate NoExpiry(s: State, step: Step) {
    step.Do? && step.action.Expire? && step.o in s.ops ==> !Awaits(s.ops[step.o].pc)
  }

  /** No process dies that waits for the supervisor it launched. */
  predicate NoCrashedWaiter(s: State, step: Step) {
    step.Crash? && step.o in s.ops ==> !Awaits(s.ops[step.o].pc)
  }

  /** A waiter that accepts its supervisor's PID has read both creation times if a foreign one is on file. */
  predicate WaiterReads(s: State, step: Step) {
    step.Do? && step.action.Stamp? && step.o in s.ops && s.ops[step.o].pc.AwaitCompare?
    && (step.action.createTime == 0 || s.ops[step.o].pc.saved == 0) && Serving(s.os, s.ops[step.o].pc.pid)
    ==> Agrees(s.os, s.ops[step.o].pc.pid, s.files.createTime)
  }

  /** A supervisor can read its own creation time if a foreign one is on file. */
  predicate SupervisorReads(s: State, step: Step) {
    step.Advance? && step.own == 0 && step.pid in s.os.boots && s.os.boots[step.pid].PidWritten?
    ==> Agrees(s.os, step.pid, s.files.createTime)
  }

  /** A Start can read a supervisor.pid that is on file. */
  predicate StartReads(s: State, step: Step) {
    step.Do? && step.action == Go(false) && step.o in s.ops && s.ops[step.o].starts && s.ops[step.o].pc.ReadPid?
    ==> !s.files.present || s.files.pid.None?
  }

  /** A launched process does not get the PID that is still on file. */
  predicate NewPid(s: State, step: Step) {
    step.Do? && step.action.Spawned? ==> !s.files.present || s.files.pid != Some(step.action.pid)
  }

  /** Which of the six hypotheses a run is known to satisfy. */
  datatype Hypotheses = Hypotheses(noExpiry: bool, noCrash: bool, waiterReads: bool, supervisorReads: bool,
                                   startReads: bool, newPid: bool)

  const ALL := Hypotheses(true, true, true, true, true, true)

  /** `h` demands no more than `g`. */
  predicate Weaker(h: Hypotheses, g: Hypotheses) {
    && (h.noExpiry ==> g.noExpiry) && (h.noCrash ==> g.noCrash)
    && (h.waiterReads ==> g.waiterReads) && (h.supervisorReads ==> g.supervisorReads)
    && (h.startReads ==> g.startReads) && (h.newPid ==> g.newPid)
  }

  ghost predicate Allowed(h: Hypotheses, s: State, step: Step) {
    && Enabled(s, step)
    && (h.noExpiry ==> NoExpiry(s, step))
    && (h.noCrash ==> NoCrashedWaiter(s, step))
    && (h.waiterReads ==> WaiterReads(s, step))
    && (h.supervisorReads ==> SupervisorReads(s, step))
    && (h.startReads ==> StartReads(s, step))
    && (h.newPid ==> NewPid(s, step))
  }

  // ---------------------------------------------------------------------------------------
  // Runs

  /** Any leftover files of earlier runs, and no supervisor. */
  ghost predicate Init(s: State) {
    && s.files.present && s.lock == None && s.ops == map[] && s.os.boots == map[]
    && forall pid :: pid in s.os.procs ==> pid > 0 && s.os.procs[pid] > 0
  }

  ghost predicate Next(h: Hypotheses, p: State, s: State) {
    exists step :: Allowed(h, p, step) && Apply(p, step) == s
  }

  /** State `s` ends a run of `k` steps, all allowed under `h`. */
  ghost predicate Reachable(h: Hypotheses, s: State, k: nat)
    decreases k
  {
    if k == 0 then Init(s)
    else exists p :: Reachable(h, p, k - 1) && Next(h, p, s)
  }

  ghost predicate OneSupervisor(os: Os) {
    forall p, q :: Serving(os, p) && Serving(os, q) ==> p == q
  }
}
