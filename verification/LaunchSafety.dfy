/** At most one supervisor serves a task, in every run that satisfies the six hypotheses of Launch. */
module LaunchSafety {
  import opened Wrappers
  import opened ProcessIdentity
  import opened Launch

  /** What verifyAndGetPID finds whenever it looks: the files name this process. */
  predicate Known(f: Files, os: Os, pid: int) {
    f.present && f.pid == Some(pid) && Agrees(os, pid, f.createTime)
  }

  ghost predicate Active(s: State, o: OpId) {
    o in s.ops && !s.ops[o].crashed
  }

  /** Some live operation keeps the lock and waits for the launched process `pid`. */
  ghost predicate Awaited(s: State, pid: int) {
    && s.lock.Some? && Active(s, s.lock.value)
    && Awaits(s.ops[s.lock.value].pc) && s.ops[s.lock.value].pc.pid == pid
  }

  predicate Locked(pc: Pc) {
    !pc.WantLock? && !pc.Done?
  }

  predicate Verifying(pc: Pc) {
    pc.ReadPid? || pc.ProbeAlive? || pc.ReadCreate? || pc.Compare?
  }

  ghost predicate NoneServing(os: Os) {
    forall p :: !Serving(os, p)
  }

  ghost predicate OsInv(os: Os) {
    && (forall pid :: pid in os.procs ==> pid > 0 && os.procs[pid] > 0)
    && (forall pid :: pid in os.boots ==> pid in os.procs)
  }

  /** How far the files speak for a serving supervisor. */
  ghost predicate ServingInv(s: State, pid: int) {
    Serving(s.os, pid) ==>
      var boot := s.os.boots[pid];
      && (boot.Booting? ==> !s.files.present || (Awaited(s, pid) && s.files.pid != Some(pid)))
      && (boot.PidCleared? ==> s.files.present && s.files.pid == None && Awaited(s, pid))
      && (boot.PidWritten? || boot.OwnRead? ==>
            s.files.present && s.files.pid == Some(pid) && (Awaited(s, pid) || Known(s.files, s.os, pid)))
      && (boot.OwnRead? || boot.StampCleared? ==> pid in s.os.procs && boot.own == s.os.procs[pid])
      && (boot.StampCleared? || boot.Ready? || boot.ExitWritten? ==> Known(s.files, s.os, pid))
  }

  ghost predicate OpInv(s: State, o: OpId)
    requires o in s.ops
  {
    var op := s.ops[o]; var pc := op.pc;
    && (Locked(pc) ==> s.lock == Some(o))
    && (Verifying(pc) ==> forall p :: Serving(s.os, p) ==> Known(s.files, s.os, p))
    && (pc.ProbeAlive? || pc.ReadCreate? || pc.Compare? ==> forall p :: Serving(s.os, p) ==> p == pc.pid)
    && (pc.Compare? && Serving(s.os, pc.pid) ==> Agrees(s.os, pc.pid, pc.saved))
    && (pc.ClearExit? || pc.Launching? ==> NoneServing(s.os))
    && (pc.Launching? ==> !s.files.exited)
    && (Awaits(pc) ==>
          && (forall p :: Serving(s.os, p) ==> p == pc.pid)
          && (s.files.present && s.files.exited && Serving(s.os, pc.pid) ==> s.os.boots[pc.pid].ExitWritten?))
    && ((pc.AwaitCreate? || pc.AwaitCompare?) && Serving(s.os, pc.pid) && s.files.present ==>
          s.files.pid == Some(pc.pid))
    && (pc.AwaitCompare? && pc.saved != 0 && Serving(s.os, pc.pid) && s.files.present ==>
          s.files.createTime == pc.saved || Agrees(s.os, pc.pid, s.files.createTime))
    && (op.last ==> Awaits(pc) || pc.Unlocking? || pc.Done?)
    && (Awaits(pc) && op.last ==> !Serving(s.os, pc.pid))
  }

  ghost predicate Inv(s: State) {
    && OsInv(s.os)
    && (s.lock.Some? ==> s.lock.value in s.ops)
    && (forall pid :: ServingInv(s, pid))
    && (forall o :: Active(s, o) ==> OpInv(s, o))
    && OneSupervisor(s.os)
  }

  // ---------------------------------------------------------------------------------------
  // Preservation

  /** A supervisor serves after the step only if it did before, or if this step launched it. */
  lemma ServedBefore(s: State, step: Step, p: int)
    requires Inv(s) && Enabled(s, step) && Serving(Apply(s, step).os, p)
    ensures Serving(s.os, p) || (step.Do? && step.action.Spawned? && step.action.pid == p && NoneServing(s.os))
  {
    if step.Do? { assert OpInv(s, step.o); }
  }

  lemma OneKept(s: State, step: Step)
    requires Inv(s) && Enabled(s, step)
    ensures OneSupervisor(Apply(s, step).os)
  {
    var os := Apply(s, step).os;
    forall p, q | Serving(os, p) && Serving(os, q) ensures p == q {
      ServedBefore(s, step, p);
      ServedBefore(s, step, q);
    }
  }

  /** While a live operation has the lock, an operation step of another one changes nothing it relies on. */
  lemma OthersWait(s: State, o: OpId, a: Action, h: OpId)
    requires Inv(s) && Enabled(s, Do(o, a)) && Active(s, h) && Locked(s.ops[h].pc) && h != o
    ensures var t := Apply(s, Do(o, a));
            t.files == s.files && t.os == s.os && t.lock == s.lock && t.ops[h] == s.ops[h]
  {
    assert OpInv(s, h) && OpInv(s, o);
  }

  /** The evidence that ends a launch wait. */
  lemma EvidenceNames(s: State, o: OpId, a: Action, p: int)
    requires Inv(s) && Allowed(ALL, s, Do(o, a))
    requires Serving(s.os, p) && Awaits(s.ops[o].pc)
    ensures var t := Apply(s, Do(o, a));
            s.ops[o].pc.pid == p && t.files == s.files && t.os == s.os && t.lock == s.lock &&
            ((Awaits(t.ops[o].pc) && t.ops[o].pc.pid == p) || Known(s.files, s.os, p) || !s.files.present)
  {
    assert OpInv(s, o) && ServingInv(s, p);
  }

  lemma ServingKeptByOp(s: State, o: OpId, a: Action, p: int)
    requires Inv(s) && Allowed(ALL, s, Do(o, a)) && Serving(s.os, p)
    ensures ServingInv(Apply(s, Do(o, a)), p)
  {
    assert OpInv(s, o) && ServingInv(s, p);
    if Awaits(s.ops[o].pc) {
      EvidenceNames(s, o, a, p);
    } else if Awaited(s, p) {
      OthersWait(s, o, a, s.lock.value);
    }
  }

  lemma ServingKeptByWorld(s: State, step: Step, p: int)
    requires Inv(s) && Allowed(ALL, s, step) && Serving(s.os, p) && !step.Do?
    requires Serving(Apply(s, step).os, p)
    ensures ServingInv(Apply(s, step), p)
  {
    assert ServingInv(s, p);
    if step.Advance? || step.RemoveOwn? {
      assert Serving(s.os, step.pid);
    }
  }

  lemma ServingKept(s: State, step: Step, p: int)
    requires Inv(s) && Allowed(ALL, s, step)
    ensures ServingInv(Apply(s, step), p)
  {
    if Serving(Apply(s, step).os, p) {
      ServedBefore(s, step, p);
      if step.Do? && step.action.Spawned? && step.action.pid == p {
        assert OpInv(s, step.o);
      } else if step.Do? {
        ServingKeptByOp(s, step.o, step.action, p);
      } else {
        ServingKeptByWorld(s, step, p);
      }
    }
  }

  lemma OwnAwaitStep(s: State, o: OpId, ok: bool)
    requires Inv(s) && Enabled(s, Do(o, Go(ok))) && Awaits(s.ops[o].pc)
    ensures OpInv(Apply(s, Do(o, Go(ok))), o)
  {
    assert OpInv(s, o);
  }

  lemma OwnReadPid(s: State, o: OpId, ok: bool)
    requires Inv(s) && Allowed(ALL, s, Do(o, Go(ok))) && s.ops[o].pc.ReadPid?
    ensures OpInv(Apply(s, Do(o, Go(ok))), o)
  {
    assert OpInv(s, o);
    forall p | Serving(s.os, p) ensures Known(s.files, s.os, p) {}
  }

  lemma OwnFileStep(s: State, o: OpId, ok: bool)
    requires Inv(s) && Allowed(ALL, s, Do(o, Go(ok)))
    ensures OpInv(Apply(s, Do(o, Go(ok))), o)
  {
    if Awaits(s.ops[o].pc) {
      OwnAwaitStep(s, o, ok);
    } else if s.ops[o].pc.ReadPid? {
      OwnReadPid(s, o, ok);
    } else {
      assert OpInv(s, o);
      forall p | Serving(s.os, p) ensures ServingInv(s, p) {}
    }
  }

  lemma OwnStep(s: State, o: OpId, a: Action)
    requires Inv(s) && Enabled(s, Do(o, a)) && !a.Go?
    ensures OpInv(Apply(s, Do(o, a)), o)
  {
    assert OpInv(s, o);
    forall p | Serving(Apply(s, Do(o, a)).os, p)
      ensures Serving(s.os, p) || (a.Spawned? && a.pid == p && NoneServing(s.os))
    {
      ServedBefore(s, Do(o, a), p);
    }
  }

  lemma OpKeptByWorld(s: State, step: Step, o: OpId)
    requires Inv(s) && Enabled(s, step) && !step.Do? && Active(s, o) && Active(Apply(s, step), o)
    ensures OpInv(Apply(s, step), o)
  {
    assert OpInv(s, o);
    forall p | Serving(Apply(s, step).os, p)
      ensures Serving(s.os, p) && (step.Advance? ==> p == step.pid) && !step.RemoveOwn?
    {
      ServedBefore(s, step, p);
      assert step.Advance? || step.RemoveOwn? ==> Serving(s.os, step.pid);
    }
    if step.Advance? {
      assert ServingInv(s, step.pid);
    }
  }

  lemma OpKept(s: State, step: Step, o: OpId)
    requires Inv(s) && Allowed(ALL, s, step) && Active(Apply(s, step), o)
    ensures OpInv(Apply(s, step), o)
  {
    if step.Do? && step.o == o {
      if step.action.Go? { OwnFileStep(s, o, step.action.ok); } else { OwnStep(s, o, step.action); }
    } else if step.Do? {
      assert OpInv(s, o);
      if Locked(s.ops[o].pc) { OthersWait(s, step.o, step.action, o); }
    } else if o in s.ops {
      OpKeptByWorld(s, step, o);
    }
  }

  lemma OsKept(s: State, step: Step)
    requires Inv(s) && Enabled(s, step)
    ensures OsInv(Apply(s, step).os)
  {
  }

  lemma LockKept(s: State, step: Step)
    requires Inv(s) && Enabled(s, step)
    ensures var t := Apply(s, step); t.lock.Some? ==> t.lock.value in t.ops
  {
    if step.Do? { assert OpInv(s, step.o); }
  }

  lemma InvKept(s: State, step: Step)
    requires Inv(s) && Allowed(ALL, s, step)
    ensures Inv(Apply(s, step))
  {
    var t := Apply(s, step);
    OneKept(s, step);
    forall p ensures ServingInv(t, p) { ServingKept(s, step, p); }
    forall o | Active(t, o) ensures OpInv(t, o) { OpKept(s, step, o); }
    OsKept(s, step);
    LockKept(s, step);
  }

  lemma {:induction false} ReachableInv(s: State, k: nat)
    requires Reachable(ALL, s, k)
    ensures Inv(s)
    decreases k
  {
    if k > 0 {
      var p :| Reachable(ALL, p, k - 1) && Next(ALL, p, s);
      ReachableInv(p, k - 1);
      var step :| Allowed(ALL, p, step) && Apply(p, step) == s;
      InvKept(p, step);
    }
  }

  // ---------------------------------------------------------------------------------------
  // Main results

  /** However Starts, Stops and Restarts interleave, at most one supervisor serves the task. */
  lemma AtMostOneSupervisor(s: State, k: nat)
    requires Reachable(ALL, s, k)
    ensures OneSupervisor(s.os)
  {
    ReachableInv(s, k);
  }

  /** A Start launches only when no supervisor serves the task. */
  lemma LaunchFindsNone(s: State, k: nat, o: OpId)
    requires Reachable(ALL, s, k) && Active(s, o) && s.ops[o].pc.Launching?
    ensures NoneServing(s.os)
  {
    ReachableInv(s, k);
    assert OpInv(s, o);
  }

  /**
   Whenever the lock is free or its holder does not wait for a launch, the files name a serving
   supervisor, and no honest read of its creation time can deny it, unless its --rm directory is gone.
   */
  lemma EvidenceNamesSupervisor(s: State, k: nat, p: int)
    requires Reachable(ALL, s, k) && Serving(s.os, p) && !Awaited(s, p)
    ensures Known(s.files, s.os, p) || (s.os.boots[p].Booting? && !s.files.present)
    ensures s.files.present ==> forall answer ::
              HonestCreateTimeAnswer(s.os.procs, p, answer) ==> VerifyPID(s.files.createTime, answer)
  {
    ReachableInv(s, k);
    assert ServingInv(s, p);
  }
}
