/**
 None of the six hypotheses of Launch can be dropped: for each one there is a run that satisfies the
 other five and ends with two supervisors of one task.  So there is at most one in all runs exactly if
 all six are demanded.
 */
module LaunchLimits {
  import opened Wrappers
  import opened Launch
  import opened LaunchSafety

  ghost predicate Occurs(h: Hypotheses, s: State) {
    exists k: nat :: Reachable(h, s, k)
  }

  ghost predicate TwoServe(h: Hypotheses) {
    exists s :: Occurs(h, s) && Serving(s.os, 1) && Serving(s.os, 2)
  }

  lemma Extend(h: Hypotheses, p: State, step: Step, s: State)
    requires Occurs(h, p) && Allowed(h, p, step) && Apply(p, step) == s
    ensures Occurs(h, s)
  {
    var k: nat :| Reachable(h, p, k);
    assert Next(h, p, s);
    assert Reachable(h, s, k + 1);
  }

  /** Processes with creation time 10 serve as supervisors. */
  function World(boots: map<int, Boot>): Os {
    Os(map p | p in boots :: 10, set p | p in boots :: (p, 10), boots)
  }

  function Starting(pc: Pc): Op {
    Op(true, pc, false, false)
  }

  /** Two Starts; the first has launched process 1. */
  function Two(files: Files, boot: Boot, lock: Option<OpId>, first: Op, second: Op): State {
    State(files, World(map[1 := boot]), lock, map[1 := first, 2 := second])
  }

  /** An operation's next access, which neither waits for the lock nor launches. */
  lemma Act(h: Hypotheses, p: State, o: OpId, a: Action, op: Op)
    requires Occurs(h, p) && Allowed(h, p, Do(o, a)) && Acted(p, o, a) == SetOp(p, o, op)
    ensures Occurs(h, SetOp(p, o, op))
  {
    Extend(h, p, Do(o, a), SetOp(p, o, op));
  }

  /** The first Start has the lock, and takes a step of its own. */
  lemma FirstActs(h: Hypotheses, files: Files, boot: Boot, pc: Pc, a: Action, pc': Pc)
    requires Occurs(h, Two(files, boot, Some(1), Starting(pc), Starting(WantLock)))
    requires var s := Two(files, boot, Some(1), Starting(pc), Starting(WantLock));
             Allowed(h, s, Do(1, a)) && Acted(s, 1, a) == SetOp(s, 1, Starting(pc'))
    ensures Occurs(h, Two(files, boot, Some(1), Starting(pc'), Starting(WantLock)))
  {
    var s := Two(files, boot, Some(1), Starting(pc), Starting(WantLock));
    Act(h, s, 1, a, Starting(pc'));
    assert s.ops[1 := Starting(pc')] == map[1 := Starting(pc'), 2 := Starting(WantLock)];
  }

  /** The second Start has the lock, and takes a step of its own. */
  lemma SecondActs(h: Hypotheses, files: Files, boot: Boot, pc: Pc, a: Action, pc': Pc)
    requires Occurs(h, Two(files, boot, Some(2), Starting(Done), Starting(pc)))
    requires var s := Two(files, boot, Some(2), Starting(Done), Starting(pc));
             Allowed(h, s, Do(2, a)) && Acted(s, 2, a) == SetOp(s, 2, Starting(pc'))
    ensures Occurs(h, Two(files, boot, Some(2), Starting(Done), Starting(pc')))
  {
    var s := Two(files, boot, Some(2), Starting(Done), Starting(pc));
    Act(h, s, 2, a, Starting(pc'));
    assert s.ops[2 := Starting(pc')] == map[1 := Starting(Done), 2 := Starting(pc')];
  }

  /** Start number o takes the lock and reads the task's meta.json. */
  lemma LockTaken(h: Hypotheses, s: State, o: OpId) returns (t: State)
    requires Occurs(h, s) && s.files.present && o in s.ops && s.ops[o] == Starting(WantLock)
    requires s.lock.None? || (s.lock.value in s.ops ==> s.ops[s.lock.value].crashed)
    ensures Occurs(h, t) && t == SetOp(s, o, Starting(ReadPid)).(lock := Some(o))
  {
    var locked := SetOp(s, o, Starting(Reread)).(lock := Some(o));
    Extend(h, s, Do(o, Acquire), locked);
    Act(h, locked, o, Go(true), Starting(ReadPid));
    t := SetOp(locked, o, Starting(ReadPid));
    assert t.ops == s.ops[o := Starting(ReadPid)];
  }

  /** It has found no supervisor, and launches process p. */
  lemma Launched(h: Hypotheses, s: State, o: OpId, p: int) returns (t: State)
    requires Occurs(h, s) && o in s.ops && s.ops[o] == Starting(ClearExit) && FreshProcess(s.os, p, 10)
    requires h.newPid ==> s.files.pid != Some(p)
    ensures Occurs(h, t) && Serving(t.os, p) && t.os.boots == s.os.boots[p := Booting]
    ensures t == SetOp(s, o, Starting(AwaitExit(p))).(files := s.files.(exited := false), os := t.os)
    ensures t.os == NewProcess(s.os, p, 10).(boots := s.os.boots[p := Booting])
  {
    var ready := SetOp(s, o, Starting(Launching)).(files := s.files.(exited := false));
    Extend(h, s, Do(o, Go(true)), ready);
    t := Apply(ready, Do(o, Spawned(p, 10)));
    Extend(h, ready, Do(o, Spawned(p, 10)), t);
    assert t.ops == s.ops[o := Starting(AwaitExit(p))];
  }

  /** Without a PID on file, Start launches. */
  lemma LaunchWithoutPid(h: Hypotheses, s: State, o: OpId, p: int) returns (t: State)
    requires Occurs(h, s) && s.files.present && s.files.pid.None? && o in s.ops && s.ops[o] == Starting(WantLock)
    requires s.lock.None? || (s.lock.value in s.ops ==> s.ops[s.lock.value].crashed)
    requires FreshProcess(s.os, p, 10)
    ensures Occurs(h, t) && t.os == NewProcess(s.os, p, 10).(boots := s.os.boots[p := Booting])
    ensures t.files == s.files.(exited := false) && t.lock == Some(o)
    ensures t.ops == s.ops[o := Starting(AwaitExit(p))]
  {
    t := LockTaken(h, s, o);
    Act(h, t, o, Go(true), Starting(ClearExit));
    t := SetOp(t, o, Starting(ClearExit));
    t := Launched(h, t, o, p);
    assert t.ops == s.ops[o := Starting(AwaitExit(p))];
  }

  lemma Submitted(h: Hypotheses, files: Files) returns (s: State)
    requires files.present
    ensures Occurs(h, s) && s.files == files && s.lock == None && s.os == World(map[])
    ensures s.ops == map[1 := Starting(WantLock), 2 := Starting(WantLock)]
  {
    var empty := State(files, World(map[]), None, map[]);
    assert Reachable(h, empty, 0);
    var one := empty.(ops := map[1 := Starting(WantLock)]);
    Extend(h, empty, Submit(1, true), one);
    s := empty.(ops := map[1 := Starting(WantLock), 2 := Starting(WantLock)]);
    Extend(h, one, Submit(2, true), s);
  }

  /** Two Starts are submitted and the first one launches process 1. */
  lemma FirstLaunch(h: Hypotheses, files: Files)
    requires files.present && files.pid.None? && !files.exited
    ensures Occurs(h, Two(files, Booting, Some(1), Starting(AwaitExit(1)), Starting(WantLock)))
  {
    var s := Submitted(h, files);
    s := LaunchWithoutPid(h, s, 1, 1);
    assert s.os == World(map[1 := Booting]) && s.ops == map[1 := Starting(AwaitExit(1)), 2 := Starting(WantLock)];
    assert s == Two(files, Booting, Some(1), Starting(AwaitExit(1)), Starting(WantLock));
  }

  lemma SupervisorActs(h: Hypotheses, files: Files, boot: Boot, pc: Pc, own: int, files': Files, boot': Boot)
    requires Occurs(h, Two(files, boot, Some(1), Starting(pc), Starting(WantLock)))
    requires var s := Two(files, boot, Some(1), Starting(pc), Starting(WantLock));
             Allowed(h, s, Advance(1, own)) && Advanced(s, 1, own) == Wrote(s, 1, files', boot')
    ensures Occurs(h, Two(files', boot', Some(1), Starting(pc), Starting(WantLock)))
  {
    var s := Two(files, boot, Some(1), Starting(pc), Starting(WantLock));
    assert s.os.boots[1 := boot'] == map[1 := boot'];
    Extend(h, s, Advance(1, own), Two(files', boot', Some(1), Starting(pc), Starting(WantLock)));
  }

  /** The supervisor writes its PID. */
  lemma PidOnFile(h: Hypotheses, files: Files, pc: Pc)
    requires Occurs(h, Two(files, Booting, Some(1), Starting(pc), Starting(WantLock))) && files.present
    ensures Occurs(h, Two(files.(pid := Some(1)), PidWritten, Some(1), Starting(pc), Starting(WantLock)))
  {
    SupervisorActs(h, files, Booting, pc, 0, files.(pid := None), PidCleared);
    SupervisorActs(h, files.(pid := None), PidCleared, pc, 0, files.(pid := Some(1)), PidWritten);
  }

  /** The waiter finds the PID of its supervisor on file, and reads the creation time there. */
  lemma PidFound(h: Hypotheses, files: Files, boot: Boot)
    requires Occurs(h, Two(files, boot, Some(1), Starting(AwaitExit(1)), Starting(WantLock)))
    requires files.present && files.pid == Some(1) && !files.exited
    ensures Occurs(h, Two(files, boot, Some(1), Starting(AwaitCompare(1, files.createTime)), Starting(WantLock)))
  {
    FirstActs(h, files, boot, AwaitExit(1), Go(true), AwaitMeta(1));
    FirstActs(h, files, boot, AwaitMeta(1), Go(true), AwaitPid(1));
    FirstActs(h, files, boot, AwaitPid(1), Go(true), AwaitCreate(1));
    FirstActs(h, files, boot, AwaitCreate(1), Go(true), AwaitCompare(1, files.createTime));
  }

  /** The waiter cannot read its creation time, and accepts the one on file. */
  lemma PidAccepted(h: Hypotheses, files: Files, boot: Boot)
    requires Occurs(h, Two(files, boot, Some(1), Starting(AwaitExit(1)), Starting(WantLock)))
    requires files.present && files.pid == Some(1) && !files.exited
    requires h.waiterReads ==> files.createTime == 0
    ensures Occurs(h, Two(files, boot, Some(1), Starting(Unlocking), Starting(WantLock)))
  {
    PidFound(h, files, boot);
    FirstActs(h, files, boot, AwaitCompare(1, files.createTime), Stamp(0), Unlocking);
  }

  lemma Unlocked(h: Hypotheses, files: Files, boot: Boot)
    requires Occurs(h, Two(files, boot, Some(1), Starting(Unlocking), Starting(WantLock)))
    ensures Occurs(h, Two(files, boot, None, Starting(Done), Starting(WantLock)))
  {
    Extend(h, Two(files, boot, Some(1), Starting(Unlocking), Starting(WantLock)), Do(1, Go(true)),
           Two(files, boot, None, Starting(Done), Starting(WantLock)));
  }

  // ---------------------------------------------------------------------------------------
  // A crashed waiter

  const CRASH := ALL.(noCrash := false)
  const BLANK := Files(true, None, 0, false)

  /** The waiting Start crashes; its lock is taken over and the second Start launches process 2. */
  lemma CrashedWaiterAllowsTwo()
    ensures TwoServe(CRASH)
  {
    FirstLaunch(CRASH, BLANK);
    var waiter := Starting(AwaitExit(1));
    var s := Two(BLANK, Booting, Some(1), waiter, Starting(WantLock));
    var crashed := Two(BLANK, Booting, Some(1), waiter.(crashed := true), Starting(WantLock));
    Extend(CRASH, s, Crash(1), crashed);
    s := LaunchWithoutPid(CRASH, crashed, 2, 2);
  }

  // ---------------------------------------------------------------------------------------
  // An expired wait

  const EXPIRY := ALL.(noExpiry := false)

  /** The first Start finds no evidence of its launch and gives up. */
  lemma WaitExpires()
    ensures Occurs(EXPIRY, Two(BLANK, Booting, Some(1), Starting(Unlocking), Starting(WantLock)))
  {
    FirstLaunch(EXPIRY, BLANK);
    FirstActs(EXPIRY, BLANK, Booting, AwaitExit(1), Go(true), AwaitMeta(1));
    FirstActs(EXPIRY, BLANK, Booting, AwaitMeta(1), Go(true), AwaitPid(1));
    FirstActs(EXPIRY, BLANK, Booting, AwaitPid(1), Go(true), AwaitAlive(1));
    FirstActs(EXPIRY, BLANK, Booting, AwaitAlive(1), Expire, Unlocking);
  }

  /** The launched process has not written its PID when the second Start looks for one. */
  lemma ExpiredWaitAllowsTwo()
    ensures TwoServe(EXPIRY)
  {
    WaitExpires();
    Unlocked(EXPIRY, BLANK, Booting);
    var s := LaunchWithoutPid(EXPIRY, Two(BLANK, Booting, None, Starting(Done), Starting(WantLock)), 2, 2);
  }

  // ---------------------------------------------------------------------------------------
  // A creation time left by an earlier supervisor, which Start does not clear

  const LEFT_OVER := Files(true, None, 5, false)
  const NAMED := LEFT_OVER.(pid := Some(1))

  lemma PidProbed(h: Hypotheses, files: Files, boot: Boot)
    requires files in {NAMED, NAMED.(exited := true)}
    requires Occurs(h, Two(files, boot, Some(2), Starting(Done), Starting(ReadPid)))
    ensures Occurs(h, Two(files, boot, Some(2), Starting(Done), Starting(ReadCreate(1))))
  {
    SecondActs(h, files, boot, ReadPid, Go(true), ProbeAlive(1));
    SecondActs(h, files, boot, ProbeAlive(1), Answer(true), ReadCreate(1));
  }

  lemma IdentityDenied(h: Hypotheses, files: Files, boot: Boot)
    requires files in {NAMED, NAMED.(exited := true)}
    requires Occurs(h, Two(files, boot, Some(2), Starting(Done), Starting(ReadCreate(1))))
    ensures Occurs(h, Two(files, boot, Some(2), Starting(Done), Starting(ClearExit)))
  {
    SecondActs(h, files, boot, ReadCreate(1), Go(true), Compare(1, 5));
    SecondActs(h, files, boot, Compare(1, 5), Stamp(10), ClearExit);
  }

  /** The second Start finds the supervisor's PID, denies its identity, and launches process 2. */
  lemma DeniedSupervisor(h: Hypotheses, files: Files, boot: Boot)
    requires files in {NAMED, NAMED.(exited := true)} && !boot.Gone?
    requires Occurs(h, Two(files, boot, None, Starting(Done), Starting(WantLock)))
    ensures TwoServe(h)
  {
    var s := LockTaken(h, Two(files, boot, None, Starting(Done), Starting(WantLock)), 2);
    assert s == Two(files, boot, Some(2), Starting(Done), Starting(ReadPid));
    PidProbed(h, files, boot);
    IdentityDenied(h, files, boot);
    s := Launched(h, Two(files, boot, Some(2), Starting(Done), Starting(ClearExit)), 2, 2);
  }

  const WAITER := ALL.(waiterReads := false)

  /** The supervisor has written its PID but not its creation time. */
  lemma UnreadWaiterStampAllowsTwo()
    ensures TwoServe(WAITER)
  {
    FirstLaunch(WAITER, LEFT_OVER);
    PidOnFile(WAITER, LEFT_OVER, AwaitExit(1));
    PidAccepted(WAITER, NAMED, PidWritten);
    Unlocked(WAITER, NAMED, PidWritten);
    DeniedSupervisor(WAITER, NAMED, PidWritten);
  }

  const SUPERVISOR := ALL.(supervisorReads := false)

  /** The supervisor cannot read its own creation time, and its command ends before the waiter looks. */
  lemma ForeignTimeKept()
    ensures Occurs(SUPERVISOR,
                   Two(NAMED.(exited := true), ExitWritten, Some(1), Starting(Unlocking), Starting(WantLock)))
  {
    var h, ended := SUPERVISOR, NAMED.(exited := true);
    FirstLaunch(h, LEFT_OVER);
    PidOnFile(h, LEFT_OVER, AwaitExit(1));
    SupervisorActs(h, NAMED, PidWritten, AwaitExit(1), 0, NAMED, Boot.Ready);
    SupervisorActs(h, NAMED, Boot.Ready, AwaitExit(1), 0, ended, ExitWritten);
    FirstActs(h, ended, ExitWritten, AwaitExit(1), Go(true), Unlocking);
  }

  lemma UnreadOwnStampAllowsTwo()
    ensures TwoServe(SUPERVISOR)
  {
    ForeignTimeKept();
    Unlocked(SUPERVISOR, NAMED.(exited := true), ExitWritten);
    DeniedSupervisor(SUPERVISOR, NAMED.(exited := true), ExitWritten);
  }

  // ---------------------------------------------------------------------------------------
  // A supervisor.pid that cannot be read

  const READER := ALL.(startReads := false)

  /** The first Start has seen its supervisor write its PID. */
  lemma LaunchAccepted(h: Hypotheses)
    ensures Occurs(h, Two(BLANK.(pid := Some(1)), PidWritten, None, Starting(Done), Starting(WantLock)))
  {
    FirstLaunch(h, BLANK);
    PidOnFile(h, BLANK, AwaitExit(1));
    PidAccepted(h, BLANK.(pid := Some(1)), PidWritten);
    Unlocked(h, BLANK.(pid := Some(1)), PidWritten);
  }

  /** The second Start cannot read the PID, and launches process 2. */
  lemma UnreadPidAllowsTwo()
    ensures TwoServe(READER)
  {
    var files := BLANK.(pid := Some(1));
    LaunchAccepted(READER);
    var s := LockTaken(READER, Two(files, PidWritten, None, Starting(Done), Starting(WantLock)), 2);
    assert s == Two(files, PidWritten, Some(2), Starting(Done), Starting(ReadPid));
    SecondActs(READER, files, PidWritten, ReadPid, Go(false), ClearExit);
    s := Launched(READER, Two(files, PidWritten, Some(2), Starting(Done), Starting(ClearExit)), 2, 2);
  }

  // ---------------------------------------------------------------------------------------
  // A PID left by an earlier supervisor, which the launched process gets again

  const REUSED := ALL.(newPid := false)
  const LEFT_PID := Files(true, Some(1), 0, false)

  /** The first Start finds process 1 dead, and the supervisor that it launches gets the PID again. */
  lemma PidReused()
    ensures Occurs(REUSED, Two(LEFT_PID, Booting, Some(1), Starting(AwaitExit(1)), Starting(WantLock)))
  {
    var s := Submitted(REUSED, LEFT_PID);
    s := LockTaken(REUSED, s, 1);
    Act(REUSED, s, 1, Go(true), Starting(ProbeAlive(1)));
    s := SetOp(s, 1, Starting(ProbeAlive(1)));
    Act(REUSED, s, 1, Answer(false), Starting(ClearExit));
    s := Launched(REUSED, SetOp(s, 1, Starting(ClearExit)), 1, 1);
    assert s.ops == map[1 := Starting(AwaitExit(1)), 2 := Starting(WantLock)] && s.os == World(map[1 := Booting]);
    assert s == Two(LEFT_PID, Booting, Some(1), Starting(AwaitExit(1)), Starting(WantLock));
  }

  /** The waiter accepts the left-over PID; the supervisor truncates the file, and the second Start reads none. */
  lemma ReusedPidAllowsTwo()
    ensures TwoServe(REUSED)
  {
    PidReused();
    PidAccepted(REUSED, LEFT_PID, Booting);
    SupervisorActs(REUSED, LEFT_PID, Booting, Unlocking, 0, BLANK, PidCleared);
    Unlocked(REUSED, BLANK, PidCleared);
    var s := LaunchWithoutPid(REUSED, Two(BLANK, PidCleared, None, Starting(Done), Starting(WantLock)), 2, 2);
  }

  // ---------------------------------------------------------------------------------------
  // The exact condition

  lemma NextWeaker(h: Hypotheses, g: Hypotheses, p: State, s: State)
    requires Weaker(h, g) && Next(g, p, s)
    ensures Next(h, p, s)
  {
    var step :| Allowed(g, p, step) && Apply(p, step) == s;
    assert Allowed(h, p, step);
  }

  lemma {:induction false} FewerHypotheses(h: Hypotheses, g: Hypotheses, s: State, k: nat)
    requires Weaker(h, g) && Reachable(g, s, k)
    ensures Reachable(h, s, k)
    decreases k
  {
    if k > 0 {
      var p :| Reachable(g, p, k - 1) && Next(g, p, s);
      FewerHypotheses(h, g, p, k - 1);
      NextWeaker(h, g, p, s);
    }
  }

  ghost predicate AlwaysOne(h: Hypotheses) {
    forall s, k: nat :: Reachable(h, s, k) ==> OneSupervisor(s.os)
  }

  lemma TwoUnder(h: Hypotheses, g: Hypotheses)
    requires Weaker(h, g) && TwoServe(g)
    ensures !AlwaysOne(h)
  {
    var s :| Occurs(g, s) && Serving(s.os, 1) && Serving(s.os, 2);
    var k: nat :| Reachable(g, s, k);
    FewerHypotheses(h, g, s, k);
  }

  /** A task has at most one supervisor, in all runs, exactly if all six hypotheses are demanded. */
  lemma OneSupervisorExactly(h: Hypotheses)
    ensures AlwaysOne(h) <==> h == ALL
  {
    if h == ALL {
      forall s, k: nat | Reachable(h, s, k) ensures OneSupervisor(s.os) { AtMostOneSupervisor(s, k); }
    } else if !h.noExpiry {
      ExpiredWaitAllowsTwo();
      TwoUnder(h, EXPIRY);
    } else if !h.noCrash {
      CrashedWaiterAllowsTwo();
      TwoUnder(h, CRASH);
    } else if !h.waiterReads {
      UnreadWaiterStampAllowsTwo();
      TwoUnder(h, WAITER);
    } else if !h.supervisorReads {
      UnreadOwnStampAllowsTwo();
      TwoUnder(h, SUPERVISOR);
    } else if !h.startReads {
      UnreadPidAllowsTwo();
      TwoUnder(h, READER);
    } else {
      ReusedPidAllowsTwo();
      TwoUnder(h, REUSED);
    }
  }
}
