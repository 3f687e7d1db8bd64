/**
 The cross-process lock of internal/state/lock.go, as a transition system.

 Every system call that touches the lock file is one step, so a read and the act
 that relies on it can be separated by any number of steps of other contenders.
 The file system, the process table and the clock are part of the state; crashes,
 PID reuse, torn writes and failing calls are steps or step labels.

 `Enabled` and `Apply` are the code.  The three hypotheses about scheduling that
 the safety proof uses are separate predicates, and LeaseLimits shows that none
 of them can be dropped.
 */
module LeaseProtocol {
  import opened Wrappers
  import opened ProcessIdentity

  const STALE_AFTER := 30      // leaseStaleAfter, in seconds
  const REMOVE_ATTEMPTS := 50  // leaseRemoveAttempts

  type Nonce = int

  datatype LeaseRecord = LeaseRecord(
    pid: int, createTime: int, nonce: Nonce, acquiredAt: int, heartbeatAt: int)

  /** What a reader finds: bytes that are no lease record (tag 0: none at all), or a record. */
  datatype Content = Unparseable(tag: nat) | Parsed(rec: LeaseRecord)

  /** `origin` is the acquisition that created the file: its descriptor writes here and nowhere else. */
  datatype LockFile = LockFile(content: Content, mtime: int, origin: Nonce)

  /** Where one acquisition attempt stands. */
  datatype Phase =
    | Creating                        // next: O_CREATE|O_EXCL
    | Writing                         // file created; next: write the record
    | Closing                         // record written; next: close
    | Aborting                        // write or close failed; next: remove the file
    | Inspecting                      // file existed; next: first read
    | Judging(first: Content)         // next: heartbeat or modification time test
    | Probing(first: Content)         // heartbeat stale; next: IsAlive
    | Verifying(first: Content)       // PID is taken; next: compare creation times
    | Condemned(first: Content)       // owner gone; next: second read
    | Aged(first: Content)            // unparseable and old; next: second read
    | Reaping(first: Content)         // second read equal; next: remove
    | Waiting                         // poll tick or cancellation
    | Held
    | Joining                         // stopHeartbeat closed; waiting for heartbeatDone
    | Unlocking(attempt: nat)         // next: read before the attempt
    | Stating(attempt: nat)           // nothing parseable read; next: stat
    | Removing(attempt: nat)          // own nonce read; next: remove
    | Released
    | Failed

  /** The heartbeat goroutine of a lease; Loaded holds the record that renew read. */
  datatype Heartbeat = Off | Idle | Loaded(rec: LeaseRecord) | Done

  datatype Contender = Contender(pid: int, createTime: int, phase: Phase, heartbeat: Heartbeat)

  datatype State = State(
    now: int,
    procs: ProcessTable,
    incarnations: set<(int, int)>,    // every (PID, creation time) ever seen
    file: Option<LockFile>,
    nonces: set<Nonce>,               // every nonce ever drawn
    contenders: map<Nonce, Contender>)

  /** Steps of a contender; the labels carry every choice the code does not make. */
  datatype Action =
    | Create(ok: bool)
    | WriteTorn(tag: nat)
    | WriteRecord(createTime: int, at: int)
    | WriteFails
    | Close(ok: bool)
    | AbortRemove(ok: bool)
    | FirstRead(ok: bool)
    | Judge(statOk: bool)
    | Probe(alive: bool)
    | Verify(createTime: int)
    | SecondRead(ok: bool)
    | ReapRemove(ok: bool)
    | Poll
    | Cancel
    | Renew(ok: bool)
    | Replace(ok: bool)
    | StopHeartbeat
    | Unlock
    | Join
    | ReadBeforeRemove(ok: bool)
    | StatBeforeRetry
    | UnlockRemove(ok: bool)

  datatype Step =
    | Tick(d: nat)
    | Spawn(pid: int, createTime: int)
    | Die(pid: int)
    | Begin(n: Nonce, pid: int)       // acquireLease draws a nonce
    | Do(n: Nonce, action: Action)

  ghost predicate Live(s: State, n: Nonce) {
    n in s.contenders && Running(s.procs, s.contenders[n].pid, s.contenders[n].createTime)
  }

  /** The phases of a lease that acquireLease has returned. */
  predicate Recorded(p: Phase) {
    p.Held? || p.Joining? || p.Unlocking? || p.Stating? || p.Removing?
  }

  /** From the exclusive create to the removal, a contender answers for the file. */
  predicate Owning(p: Phase) {
    p.Writing? || p.Closing? || p.Aborting? || Recorded(p)
  }

  ghost predicate LiveOwner(s: State, n: Nonce) {
    Live(s, n) && Owning(s.contenders[n].phase)
  }

  /** Which action the code of contender `c` may take next. */
  ghost predicate Ready(procs: ProcessTable, c: Contender, a: Action) {
    var p := c.phase;
    match a
    case Create(_) => p.Creating?
    case WriteTorn(_) => p.Writing?
    case WriteRecord(ct, _) => p.Writing? && (ct == 0 || ct == c.createTime)
    case WriteFails => p.Writing?
    case Close(_) => p.Closing?
    case AbortRemove(_) => p.Aborting?
    case FirstRead(_) => p.Inspecting?
    case Judge(_) => p.Judging?
    case Probe(alive) => p.Probing? && p.first.Parsed? && HonestAliveAnswer(procs, p.first.rec.pid, alive)
    case Verify(ct) => p.Verifying? && p.first.Parsed? && HonestCreateTimeAnswer(procs, p.first.rec.pid, ct)
    case SecondRead(_) => p.Condemned? || p.Aged?
    case ReapRemove(_) => p.Reaping?
    case Poll => p.Waiting?
    case Cancel => p.Waiting?
    case Renew(_) => c.heartbeat.Idle?
    case Replace(_) => c.heartbeat.Loaded?
    case StopHeartbeat => p.Joining? && c.heartbeat.Idle?
    case Unlock => p.Held?
    case Join => p.Joining? && c.heartbeat.Done?
    case ReadBeforeRemove(_) => p.Unlocking?
    case StatBeforeRetry => p.Stating?
    case UnlockRemove(_) => p.Removing?
  }

  ghost predicate Enabled(s: State, step: Step) {
    match step
    case Tick(_) => true
    case Spawn(pid, ct) => pid > 0 && ct > 0 && pid !in s.procs && (pid, ct) !in s.incarnations
    case Die(pid) => pid in s.procs
    case Begin(n, pid) => n !in s.nonces && pid in s.procs
    case Do(n, a) => Live(s, n) && Ready(s.procs, s.contenders[n], a)
  }

  /** tryReapStaleLease: the age test on what the first read returned. */
  function JudgedPhase(now: int, file: Option<LockFile>, first: Content, statOk: bool): Phase {
    match first
    case Unparseable(_) =>
      if !statOk || file.None? || now - file.value.mtime < STALE_AFTER then Waiting else Aged(first)
    case Parsed(rec) =>
      if now - rec.heartbeatAt < STALE_AFTER then Waiting else Probing(first)
  }

  /** removeLeaseIfOwned: the next turn of the loop after attempt number `attempt` removed nothing. */
  function RetryPhase(attempt: nat): Phase {
    if attempt + 1 < REMOVE_ATTEMPTS then Unlocking(attempt + 1) else Released
  }

  function ReadBeforeRemovePhase(file: Option<LockFile>, n: Nonce, attempt: nat, ok: bool): Phase {
    if ok && file.Some? && file.value.content.Parsed? then
      if file.value.content.rec.nonce != n then Released else Removing(attempt)
    else Stating(attempt)
  }

  predicate Carries(file: Option<LockFile>, n: Nonce) {
    file.Some? && file.value.content.Parsed? && file.value.content.rec.nonce == n
  }

  /** A write through the descriptor of acquisition n: lost if the path now names another file. */
  function WriteThrough(file: Option<LockFile>, n: Nonce, content: Content, now: int): Option<LockFile> {
    if file.Some? && file.value.origin == n then Some(LockFile(content, now, n)) else file
  }

  /** The contender and the lock file after action `a` of contender `n`. */
  ghost function Effect(s: State, n: Nonce, a: Action): (Contender, Option<LockFile>)
    requires Enabled(s, Do(n, a))
  {
    var c, f := s.contenders[n], s.file;
    match a
    case Create(ok) =>
      if f.Some? then (c.(phase := Inspecting), f)
      else if !ok then (c.(phase := Failed), f)
      else (c.(phase := Writing), Some(LockFile(Unparseable(0), s.now, n)))
    case WriteTorn(tag) => (c, WriteThrough(f, n, Unparseable(tag), s.now))
    case WriteRecord(ct, at) =>
      (c.(phase := Closing), WriteThrough(f, n, Parsed(LeaseRecord(c.pid, ct, n, at, at)), s.now))
    case WriteFails => (c.(phase := Aborting), f)
    case Close(ok) => (if ok then c.(phase := Held, heartbeat := Idle) else c.(phase := Aborting), f)
    case AbortRemove(ok) => (c.(phase := Failed), if ok then None else f)
    case FirstRead(ok) => (c.(phase := if ok && f.Some? then Judging(f.value.content) else Waiting), f)
    case Judge(ok) => (c.(phase := JudgedPhase(s.now, f, c.phase.first, ok)), f)
    case Probe(alive) =>
      (c.(phase := if c.phase.first.rec.pid <= 0 || !alive then Condemned(c.phase.first)
                   else Verifying(c.phase.first)), f)
    case Verify(ct) =>
      (c.(phase := if VerifyPID(c.phase.first.rec.createTime, ct) then Waiting
                   else Condemned(c.phase.first)), f)
    case SecondRead(ok) =>
      (c.(phase := if ok && f.Some? && f.value.content == c.phase.first then Reaping(c.phase.first)
                   else Waiting), f)
    case ReapRemove(ok) =>
      if ok && f.Some? then (c.(phase := Creating), None) else (c.(phase := Waiting), f)
    case Poll => (c.(phase := Creating), f)
    case Cancel => (c.(phase := Failed), f)
    case Renew(ok) => (if ok && Carries(f, n) then c.(heartbeat := Loaded(f.value.content.rec)) else c, f)
    case Replace(ok) =>
      (c.(heartbeat := Idle),
       if ok then Some(LockFile(Parsed(c.heartbeat.rec.(heartbeatAt := s.now)), s.now, n)) else f)
    case StopHeartbeat => (c.(heartbeat := Done), f)
    case Unlock => (c.(phase := Joining), f)
    case Join => (c.(phase := Unlocking(0)), f)
    case ReadBeforeRemove(ok) => (c.(phase := ReadBeforeRemovePhase(f, n, c.phase.attempt, ok)), f)
    case StatBeforeRetry => (c.(phase := if f.None? then Released else RetryPhase(c.phase.attempt)), f)
    case UnlockRemove(ok) =>
      if ok && f.Some? then (c.(phase := Released), None) else (c.(phase := RetryPhase(c.phase.attempt)), f)
  }

  ghost function Apply(s: State, step: Step): State
    requires Enabled(s, step)
  {
    match step
    case Tick(d) => s.(now := s.now + d)
    case Spawn(pid, ct) => s.(procs := s.procs[pid := ct], incarnations := s.incarnations + {(pid, ct)})
    case Die(pid) => s.(procs := s.procs - {pid})
    case Begin(n, pid) =>
      s.(nonces := s.nonces + {n}, contenders := s.contenders[n := Contender(pid, s.procs[pid], Creating, Off)])
    case Do(n, a) =>
      var (c, f) := Effect(s, n, a);
      s.(contenders := s.contenders[n := c], file := f)
  }

  // ---------------------------------------------------------------------------------------
  // The hypotheses

  /** A live creator does not leave the file unparseable for STALE_AFTER. */
  ghost predicate TimelyCreator(s: State, step: Step) {
    step.Tick? && s.file.Some? && s.file.value.content.Unparseable? && (exists n :: LiveOwner(s, n))
    ==> s.now + step.d - s.file.value.mtime < STALE_AFTER
  }

  /** No reaper removes a file while another one is between its second read and its removal. */
  ghost predicate NoOverlappingReap(s: State, step: Step) {
    step.Do? && step.action == ReapRemove(true)
    ==> forall m :: m != step.n && Live(s, m) ==> !s.contenders[m].phase.Reaping?
  }

  /**
   Once a contender has found an unparseable file old, nobody else removes a file until its
   second read.  The equality of two reads says nothing here: two empty files have equal bytes.
   */
  ghost predicate NoRemovalAfterStat(s: State, step: Step) {
    step.Do? && step.action in {ReapRemove(true), UnlockRemove(true), AbortRemove(true)}
    ==> forall m :: m != step.n && Live(s, m) ==> !s.contenders[m].phase.Aged?
  }

  /** Which of the three hypotheses a run is known to satisfy. */
  datatype Hypotheses = Hypotheses(timely: bool, noOverlap: bool, noRemovalAfterStat: bool)

  const ALL := Hypotheses(true, true, true)

  /** `h` demands no more than `g`. */
  predicate Weaker(h: Hypotheses, g: Hypotheses) {
    && (h.timely ==> g.timely) && (h.noOverlap ==> g.noOverlap)
    && (h.noRemovalAfterStat ==> g.noRemovalAfterStat)
  }

  ghost predicate Allowed(h: Hypotheses, s: State, step: Step) {
    && Enabled(s, step)
    && (h.timely ==> TimelyCreator(s, step))
    && (h.noOverlap ==> NoOverlappingReap(s, step))
    && (h.noRemovalAfterStat ==> NoRemovalAfterStat(s, step))
  }

  // ---------------------------------------------------------------------------------------
  // Runs

  /** Any processes, and any leftover file: none, a crash remnant, or a record of an earlier nonce. */
  ghost predicate Init(s: State) {
    && s.contenders == map[]
    && (forall pid :: pid in s.procs ==> (pid, s.procs[pid]) in s.incarnations && pid > 0 && s.procs[pid] > 0)
    && (s.file.Some? ==> s.file.value.origin in s.nonces)
    && (s.file.Some? && s.file.value.content.Parsed? ==> s.file.value.content.rec.nonce in s.nonces)
  }

  ghost predicate Next(h: Hypotheses, p: State, s: State) {
    exists step :: Allowed(h, p, step) && Apply(p, step) == s
  }

  /** State `s` ends a run of `k` steps, all allowed under `h`. */
  ghost predicate Reachable(h: Hypotheses, s: State, k: nat)
    decreases k
  {
    if k == 0 then Init(s)
    else exists p :: Reachable(h, p, k - 1) && Next(h, p, s)
  }

  ghost predicate MutualExclusion(s: State) {
    forall n, m :: LiveOwner(s, n) && LiveOwner(s, m) ==> n == m
  }

  // ---------------------------------------------------------------------------------------
  // The invariant

  /** A record that names a known acquisition was written by it. */
  ghost predicate Genuine(s: State, c: Content) {
    c.Parsed? ==>
      && c.rec.nonce in s.nonces
      && (c.rec.nonce in s.contenders ==>
            && c.rec.pid == s.contenders[c.rec.nonce].pid
            && (c.rec.createTime == 0 || c.rec.createTime == s.contenders[c.rec.nonce].createTime))
  }

  predicate HasFirst(p: Phase) {
    p.Judging? || p.Probing? || p.Verifying? || p.Condemned? || p.Aged? || p.Reaping?
  }

  ghost predicate NoLiveOwner(s: State) {
    forall m :: !LiveOwner(s, m)
  }

  ghost predicate WorldInv(s: State) {
    && (forall pid :: pid in s.procs ==> (pid, s.procs[pid]) in s.incarnations && pid > 0 && s.procs[pid] > 0)
    && (forall n :: n in s.contenders ==>
          && n in s.nonces
          && (s.contenders[n].pid, s.contenders[n].createTime) in s.incarnations
          && s.contenders[n].pid > 0 && s.contenders[n].createTime > 0)
    && (s.file.Some? ==> s.file.value.origin in s.nonces && Genuine(s, s.file.value.content))
  }

  /** What a live contender may rely on about the file. */
  ghost predicate OwnerInv(s: State, n: Nonce)
    requires n in s.contenders
  {
    var c := s.contenders[n];
    && (Owning(c.phase) ==>
          && s.file.Some? && s.file.value.origin == n
          && (s.file.value.content.Parsed? ==> Carries(s.file, n))
          && (s.file.value.content.Unparseable? ==> s.now - s.file.value.mtime < STALE_AFTER))
    && (c.phase.Writing? ==> s.file.value.content.Unparseable?)
    && (Recorded(c.phase) || c.phase.Closing? ==> Carries(s.file, n))
    && (c.heartbeat.Idle? || c.heartbeat.Loaded? ==> c.phase.Held? || c.phase.Joining?)
    && (c.heartbeat.Loaded? ==> s.file.Some? && s.file.value.content == Parsed(c.heartbeat.rec))
  }

  /** What a live reaper has established. */
  ghost predicate ReaperInv(s: State, n: Nonce)
    requires n in s.contenders
  {
    var p := s.contenders[n].phase;
    && (HasFirst(p) ==> Genuine(s, p.first))
    && (p.Probing? || p.Verifying? || p.Condemned? ==> p.first.Parsed?)
    && (p.Condemned? ==> !Live(s, p.first.rec.nonce))
    && (p.Aged? ==> p.first.Unparseable? && s.file.Some?
                    && forall m :: LiveOwner(s, m) ==> s.file.value.content.Parsed?)
    && (p.Reaping? ==> s.file.Some? && s.file.value.content == p.first && NoLiveOwner(s))
    && (HasFirst(p) && !p.Judging? && p.first.Parsed? ==> s.now - p.first.rec.heartbeatAt >= STALE_AFTER)
  }

  ghost predicate Inv(s: State) {
    && WorldInv(s)
    && (forall n :: Live(s, n) ==> OwnerInv(s, n))
    && (forall n :: Live(s, n) ==> ReaperInv(s, n))
  }
}
