/** Safety of the lease lock over all runs that satisfy the three hypotheses of LeaseProtocol. */
module LeaseSafety {
  import opened Wrappers
  import opened LeaseProtocol

  predicate ActsFor(step: Step, n: Nonce) {
    step.Do? && step.n == n
  }

  predicate Starts(step: Step, n: Nonce) {
    step.Begin? && step.n == n
  }

  /** A contender stays with its process. */
  lemma SameProcess(s: State, n: Nonce, a: Action)
    requires Enabled(s, Do(n, a))
    ensures var c := Effect(s, n, a).0; c.pid == s.contenders[n].pid && c.createTime == s.contenders[n].createTime
  {
  }

  /** A dead incarnation never comes back, and nobody else moves a contender. */
  lemma LiveBefore(s: State, step: Step, n: Nonce)
    requires Inv(s) && Enabled(s, step)
    requires Live(Apply(s, step), n) && !Starts(step, n)
    ensures Live(s, n)
    ensures !ActsFor(step, n) ==> Apply(s, step).contenders[n] == s.contenders[n]
  {
  }

  lemma OwnerHasFile(s: State, n: Nonce)
    requires Inv(s) && LiveOwner(s, n)
    ensures s.file.Some? && s.file.value.origin == n
    ensures s.file.value.content.Parsed? ==> Carries(s.file, n)
  {
    assert OwnerInv(s, n);
  }

  /** Ownership starts only with an exclusive create on a free path. */
  lemma OwnerBefore(s: State, step: Step, n: Nonce)
    requires Inv(s) && Enabled(s, step)
    requires LiveOwner(Apply(s, step), n)
    ensures LiveOwner(s, n) || (step == Do(n, Create(true)) && s.file.None? && NoLiveOwner(s))
  {
    LiveBefore(s, step, n);
    forall m | LiveOwner(s, m) ensures s.file.Some? { OwnerHasFile(s, m); }
  }

  /** While a live contender owns the file, no step of anyone else changes it. */
  lemma OnlyOwnerChangesFile(s: State, step: Step, n: Nonce)
    requires Inv(s) && Enabled(s, step)
    requires LiveOwner(s, n) && !ActsFor(step, n)
    ensures Apply(s, step).file == s.file
  {
    assert OwnerInv(s, n);
    if step.Do? {
      assert OwnerInv(s, step.n) && ReaperInv(s, step.n);
      assert !LiveOwner(s, step.n);
    }
  }

  lemma WorldKept(s: State, step: Step)
    requires Inv(s) && Enabled(s, step)
    ensures WorldInv(Apply(s, step))
  {
    if step.Do? {
      assert OwnerInv(s, step.n);
    }
  }

  lemma OwnerKept(s: State, step: Step, n: Nonce)
    requires Inv(s) && Allowed(ALL, s, step)
    requires Live(Apply(s, step), n)
    ensures OwnerInv(Apply(s, step), n)
  {
    if !Starts(step, n) {
      LiveBefore(s, step, n);
      assert OwnerInv(s, n);
      if LiveOwner(s, n) && !ActsFor(step, n) {
        OnlyOwnerChangesFile(s, step, n);
      }
    }
  }

  /** Only a disciplined reaper or the owner itself takes the file away. */
  lemma FileStays(s: State, step: Step, n: Nonce)
    requires Inv(s) && Allowed(ALL, s, step)
    requires Live(s, n) && !ActsFor(step, n) && s.file.Some? && s.contenders[n].phase.Aged?
    ensures Apply(s, step).file.Some?
  {
    if step.Do? {
      assert OwnerInv(s, step.n);
    }
  }

  /** Without a live owner the file stays as the reaper's second read found it. */
  lemma CondemnedFileStays(s: State, step: Step, n: Nonce)
    requires Inv(s) && Allowed(ALL, s, step)
    requires Live(s, n) && !ActsFor(step, n) && s.contenders[n].phase.Reaping?
    ensures Apply(s, step).file == s.file
  {
    assert ReaperInv(s, n);
    if step.Do? {
      assert OwnerInv(s, step.n) && !LiveOwner(s, step.n);
    }
  }

  /** A second read that repeats a condemned or aged first read finds nobody's file. */
  lemma SecondReadFindsNoOwner(s: State, n: Nonce)
    requires Inv(s) && Enabled(s, Do(n, SecondRead(true)))
    requires s.file.Some? && s.file.value.content == s.contenders[n].phase.first
    ensures NoLiveOwner(s)
  {
    assert ReaperInv(s, n);
    forall m ensures !LiveOwner(s, m) {
      if LiveOwner(s, m) {
        OwnerHasFile(s, m);
        assert false;
      }
    }
  }

  lemma FirstReadKept(s: State, step: Step, n: Nonce)
    requires Inv(s) && Enabled(s, step)
    requires Live(Apply(s, step), n) && HasFirst(Apply(s, step).contenders[n].phase)
    ensures var s' := Apply(s, step); var p := s'.contenders[n].phase;
            && Genuine(s', p.first)
            && (p.Probing? || p.Verifying? || p.Condemned? ==> p.first.Parsed?)
            && (p.Condemned? ==> !Live(s', p.first.rec.nonce))
            && (p.Aged? ==> p.first.Unparseable?)
            && (!p.Judging? && p.first.Parsed? ==> s'.now - p.first.rec.heartbeatAt >= STALE_AFTER)
  {
    LiveBefore(s, step, n);
    assert ReaperInv(s, n);
    var p := Apply(s, step).contenders[n].phase;
    if p.Condemned? && Live(Apply(s, step), p.first.rec.nonce) {
      LiveBefore(s, step, p.first.rec.nonce);
    }
  }

  lemma AgedKept(s: State, step: Step, n: Nonce)
    requires Inv(s) && Allowed(ALL, s, step)
    requires Live(Apply(s, step), n) && Apply(s, step).contenders[n].phase.Aged?
    ensures var s' := Apply(s, step);
            s'.file.Some? && forall m :: LiveOwner(s', m) ==> s'.file.value.content.Parsed?
  {
    LiveBefore(s, step, n);
    assert ReaperInv(s, n);
    var s' := Apply(s, step);
    if !ActsFor(step, n) { FileStays(s, step, n); }
    forall m | LiveOwner(s', m) ensures s'.file.value.content.Parsed? {
      OwnerBefore(s, step, m);
      assert OwnerInv(s, m);
      if !ActsFor(step, m) { OnlyOwnerChangesFile(s, step, m); }
    }
  }

  lemma ReapingKept(s: State, step: Step, n: Nonce)
    requires Inv(s) && Allowed(ALL, s, step)
    requires Live(Apply(s, step), n) && Apply(s, step).contenders[n].phase.Reaping?
    ensures var s' := Apply(s, step);
            s'.file.Some? && s'.file.value.content == s'.contenders[n].phase.first && NoLiveOwner(s')
  {
    LiveBefore(s, step, n);
    assert ReaperInv(s, n);
    var s' := Apply(s, step);
    if !ActsFor(step, n) {
      CondemnedFileStays(s, step, n);
    } else {
      SecondReadFindsNoOwner(s, n);
    }
    forall m ensures !LiveOwner(s', m) {
      if LiveOwner(s', m) { OwnerBefore(s, step, m); }
    }
  }

  lemma ReaperKept(s: State, step: Step, n: Nonce)
    requires Inv(s) && Allowed(ALL, s, step)
    requires Live(Apply(s, step), n)
    ensures ReaperInv(Apply(s, step), n)
  {
    var p := Apply(s, step).contenders[n].phase;
    if HasFirst(p) { FirstReadKept(s, step, n); }
    if p.Aged? { AgedKept(s, step, n); }
    if p.Reaping? { ReapingKept(s, step, n); }
  }

  lemma InvKept(s: State, step: Step)
    requires Inv(s) && Allowed(ALL, s, step)
    ensures Inv(Apply(s, step))
  {
    var s' := Apply(s, step);
    WorldKept(s, step);
    forall n | Live(s', n) ensures OwnerInv(s', n) && ReaperInv(s', n) {
      OwnerKept(s, step, n);
      ReaperKept(s, step, n);
    }
  }

  lemma {:induction false} ReachableInv(s: State, k: nat)
    requires Reachable(ALL, s, k)
    ensures Inv(s)
    decreases k
  {
    if k > 0 {
      var p :| Reachable(ALL, p, k - 1) && Next(ALL, p, s);
      ReachableInv(p, k - 1);
      var step :| Allowed(ALL, p, step) && Apply(p, step) == s;
      InvKept(p, step);
    }
  }

  // ---------------------------------------------------------------------------------------
  // Main results

  /**
   In every run, at most one live contender is anywhere between its exclusive create and the
   removal of the file; in particular two leases are never held at once.
   */
  lemma MutualExclusionHolds(s: State, k: nat)
    requires Reachable(ALL, s, k)
    ensures MutualExclusion(s)
  {
    ReachableInv(s, k);
    forall n, m | LiveOwner(s, n) && LiveOwner(s, m) ensures n == m {
      OwnerHasFile(s, n);
      OwnerHasFile(s, m);
    }
  }

  /**
   While a lease is held by a live process the file carries its nonce, and a step changes the
   file only if it is that lease's own renewal, which touches heartbeat_at alone, or its release.
   */
  lemma StableOwnership(s: State, k: nat, n: Nonce, step: Step)
    requires Reachable(ALL, s, k) && Allowed(ALL, s, step)
    requires Live(s, n) && Recorded(s.contenders[n].phase)
    ensures Carries(s.file, n)
    ensures var f, f' := s.file.value, Apply(s, step).file;
            || f' == s.file
            || (step == Do(n, Replace(true)) && s.contenders[n].phase in {Held, Joining}
                && f' == Some(f.(content := Parsed(f.content.rec.(heartbeatAt := s.now)), mtime := s.now)))
            || (step == Do(n, UnlockRemove(true)) && f' == None)
  {
    ReachableInv(s, k);
    assert OwnerInv(s, n);
    if !ActsFor(step, n) {
      OnlyOwnerChangesFile(s, step, n);
    }
  }

  /** renew never recreates the file of a lease that Unlock has begun to remove. */
  lemma RenewOnlyReplacesOwnFile(s: State, k: nat, n: Nonce, ok: bool)
    requires Reachable(ALL, s, k) && Enabled(s, Do(n, Replace(ok)))
    ensures Carries(s.file, n) && s.contenders[n].phase in {Held, Joining}
    ensures s.file.value.content.rec == s.contenders[n].heartbeat.rec
  {
    ReachableInv(s, k);
    assert OwnerInv(s, n);
  }

  /** Unlock deletes only its own record, although its check and its removal are separate steps. */
  lemma UnlockRemovesOnlyOwnFile(s: State, k: nat, n: Nonce, ok: bool)
    requires Reachable(ALL, s, k) && Enabled(s, Do(n, UnlockRemove(ok)))
    ensures Carries(s.file, n) && s.file.value.origin == n
  {
    ReachableInv(s, k);
    assert OwnerInv(s, n);
  }

  /**
   A reaper deletes only a file that no live contender answers for, with the very content that it has
   judged; if that is a record, its heartbeat is stale.
   */
  lemma ReapRemovesOnlyAbandonedFile(s: State, k: nat, n: Nonce, ok: bool)
    requires Reachable(ALL, s, k) && Enabled(s, Do(n, ReapRemove(ok)))
    ensures NoLiveOwner(s) && s.file.Some? && s.file.value.content == s.contenders[n].phase.first
    ensures var c := s.file.value.content;
            c.Parsed? ==> s.now - c.rec.heartbeatAt >= STALE_AFTER
  {
    ReachableInv(s, k);
    assert ReaperInv(s, n);
  }
}
