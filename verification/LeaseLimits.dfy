/**
 None of the three hypotheses of LeaseProtocol can be dropped: for each one there is a run that
 satisfies the other two and ends with two live processes that both hold the lease.  So exclusion
 holds in all runs exactly if all three are met.
 */
module LeaseLimits {
  import opened Wrappers
  import opened LeaseProtocol
  import opened LeaseSafety

  ghost predicate DoubleHold(s: State, n: Nonce, m: Nonce) {
    n != m && Live(s, n) && Live(s, m) && s.contenders[n].phase.Held? && s.contenders[m].phase.Held?
  }

  /** Two processes alive at time 100, and the given leftover file. */
  function Start(file: Option<LockFile>): State {
    State(100, map[1 := 10, 2 := 10], {(1, 10), (2, 10)}, file, {0}, map[])
  }

  /** The record of a holder that crashed long ago. */
  const REMNANT := Parsed(LeaseRecord(9, 5, 0, 0, 0))

  ghost predicate Occurs(h: Hypotheses, s: State) {
    exists k: nat :: Reachable(h, s, k)
  }

  lemma Extend(h: Hypotheses, p: State, step: Step) returns (s: State)
    requires Occurs(h, p) && Allowed(h, p, step)
    ensures s == Apply(p, step) && Occurs(h, s)
  {
    s := Apply(p, step);
    var k: nat :| Reachable(h, p, k);
    assert Next(h, p, s);
    assert Reachable(h, s, k + 1);
  }

  lemma Begun(h: Hypotheses, file: Option<LockFile>) returns (s: State)
    requires Init(Start(file))
    ensures Occurs(h, s)
    ensures s == Start(file).(nonces := {0, 1, 2}, contenders :=
      map[1 := Contender(1, 10, Creating, Off), 2 := Contender(2, 10, Creating, Off)])
  {
    assert Reachable(h, Start(file), 0);
    s := Extend(h, Start(file), Begin(1, 1));
    s := Extend(h, s, Begin(2, 2));
  }

  ghost function Moved(s: State, n: Nonce, phase: Phase, heartbeat: Heartbeat, file: Option<LockFile>): State
    requires n in s.contenders
  {
    s.(contenders := s.contenders[n := s.contenders[n].(phase := phase, heartbeat := heartbeat)], file := file)
  }

  /** Contender n, whose exclusive create succeeded, writes its record; it counts only if the file is its own. */
  lemma Record(h: Hypotheses, p: State, n: Nonce) returns (s: State)
    requires Occurs(h, p) && Live(p, n) && p.contenders[n].phase.Writing?
    ensures Occurs(h, s)
    ensures var rec := LeaseRecord(p.contenders[n].pid, 0, n, p.now, p.now);
            s == Moved(p, n, Held, Idle, WriteThrough(p.file, n, Parsed(rec), p.now))
  {
    s := Extend(h, p, Do(n, WriteRecord(0, p.now)));
    s := Extend(h, s, Do(n, Close(true)));
    assert s.contenders == Moved(p, n, Held, Idle, s.file).contenders;
  }

  /** Contender n creates the free path, writes its record and holds the lease. */
  lemma Acquire(h: Hypotheses, p: State, n: Nonce) returns (s: State)
    requires Occurs(h, p) && Live(p, n) && p.contenders[n].phase.Creating? && p.file.None?
    ensures Occurs(h, s)
    ensures var rec := LeaseRecord(p.contenders[n].pid, 0, n, p.now, p.now);
            s == Moved(p, n, Held, Idle, Some(LockFile(Parsed(rec), p.now, n)))
  {
    s := Extend(h, p, Do(n, Create(true)));
    s := Record(h, s, n);
    var rec := LeaseRecord(p.contenders[n].pid, 0, n, p.now, p.now);
    assert s.contenders == Moved(p, n, Held, Idle, Some(LockFile(Parsed(rec), p.now, n))).contenders;
  }

  /** Contender n finds the crashed holder's record and condemns it up to its removal. */
  lemma CondemnRemnant(h: Hypotheses, p: State, n: Nonce) returns (s: State)
    requires Occurs(h, p) && Live(p, n) && p.contenders[n].phase.Creating?
    requires p.file.Some? && p.file.value.content == REMNANT && p.now == 100 && 9 !in p.procs
    ensures Occurs(h, s)
    ensures s == Moved(p, n, Reaping(REMNANT), p.contenders[n].heartbeat, p.file)
  {
    s := Extend(h, p, Do(n, Create(true)));
    s := Extend(h, s, Do(n, FirstRead(true)));
    s := Extend(h, s, Do(n, Judge(true)));
    s := Extend(h, s, Do(n, Probe(false)));
    assert s.contenders == p.contenders[n := p.contenders[n].(phase := Condemned(REMNANT))];
    s := Extend(h, s, Do(n, SecondRead(true)));
    assert s.contenders == Moved(p, n, Reaping(REMNANT), p.contenders[n].heartbeat, p.file).contenders;
  }

  /** Contender n finds an unparseable file old. */
  lemma FindAged(h: Hypotheses, p: State, n: Nonce) returns (s: State)
    requires Occurs(h, p) && Live(p, n) && p.contenders[n].phase.Creating?
    requires p.file.Some? && p.file.value.content == Unparseable(0) && p.now - p.file.value.mtime >= STALE_AFTER
    ensures Occurs(h, s)
    ensures s == Moved(p, n, Aged(Unparseable(0)), p.contenders[n].heartbeat, p.file)
  {
    s := Extend(h, p, Do(n, Create(true)));
    s := Extend(h, s, Do(n, FirstRead(true)));
    s := Extend(h, s, Do(n, Judge(true)));
    assert s.contenders == Moved(p, n, Aged(Unparseable(0)), p.contenders[n].heartbeat, p.file).contenders;
  }

  /** Contender n removes an unparseable file that it found old. */
  lemma ReapAged(h: Hypotheses, p: State, n: Nonce) returns (s: State)
    requires Occurs(h, p) && Live(p, n) && p.contenders[n].phase == Aged(Unparseable(0))
    requires p.file.Some? && p.file.value.content == Unparseable(0)
    requires forall m :: m in p.contenders && m != n ==> !p.contenders[m].phase.Reaping?
    requires h.noRemovalAfterStat ==> forall m :: m in p.contenders && m != n ==> !p.contenders[m].phase.Aged?
    ensures Occurs(h, s)
    ensures s == Moved(p, n, Creating, p.contenders[n].heartbeat, None)
  {
    s := Extend(h, p, Do(n, SecondRead(true)));
    s := Extend(h, s, Do(n, ReapRemove(true)));
    assert s.contenders == Moved(p, n, Creating, p.contenders[n].heartbeat, None).contenders;
  }

  /**
   Two reapers of one crash remnant both pass their second read; the slower one then removes the
   lease that the faster one has acquired in between.
   */
  lemma OverlappingReapsBreakExclusion()
    ensures exists s :: Occurs(Hypotheses(true, false, true), s) && DoubleHold(s, 1, 2)
  {
    var h := Hypotheses(true, false, true);
    var s := Begun(h, Some(LockFile(REMNANT, 0, 0)));
    s := CondemnRemnant(h, s, 1);
    s := CondemnRemnant(h, s, 2);
    s := Extend(h, s, Do(1, ReapRemove(true)));
    s := Acquire(h, s, 1);
    s := Extend(h, s, Do(2, ReapRemove(true)));
    s := Acquire(h, s, 2);
    assert DoubleHold(s, 1, 2);
  }

  /** Both contenders find an empty remnant old. */
  lemma BothFindAged(h: Hypotheses) returns (s: State)
    ensures Occurs(h, s)
    ensures s == Start(Some(LockFile(Unparseable(0), 0, 0))).(nonces := {0, 1, 2}, contenders :=
      map[1 := Contender(1, 10, Aged(Unparseable(0)), Off), 2 := Contender(2, 10, Aged(Unparseable(0)), Off)])
  {
    s := Begun(h, Some(LockFile(Unparseable(0), 0, 0)));
    s := FindAged(h, s, 1);
    s := FindAged(h, s, 2);
  }

  /** Contender 2 reaps the remnant and recreates the file; contender 1 reads again. */
  lemma EqualEmptyReads(h: Hypotheses) returns (s: State)
    requires h == Hypotheses(true, true, false)
    ensures Occurs(h, s)
    ensures s == Start(Some(LockFile(Unparseable(0), 100, 2))).(nonces := {0, 1, 2}, contenders :=
      map[1 := Contender(1, 10, Reaping(Unparseable(0)), Off), 2 := Contender(2, 10, Writing, Off)])
  {
    s := BothFindAged(h);
    s := ReapAged(h, s, 2);
    s := Extend(h, s, Do(2, Create(true)));
    s := Extend(h, s, Do(1, SecondRead(true)));
  }

  /**
   An empty remnant is found old by contender 1, then reaped and recreated by contender 2.  The new
   file is empty too, so the second read of contender 1 sees equal bytes and it removes a live file,
   although the windows from second read to removal never overlap.
   */
  lemma RemovalAfterStatBreaksExclusion()
    ensures exists s :: Occurs(Hypotheses(true, true, false), s) && DoubleHold(s, 1, 2)
  {
    var h := Hypotheses(true, true, false);
    var s := EqualEmptyReads(h);
    s := Record(h, s, 2);
    s := Extend(h, s, Do(1, ReapRemove(true)));
    s := Acquire(h, s, 1);
    assert DoubleHold(s, 1, 2);
  }

  /** A creator that needs STALE_AFTER to write its record is taken for a crash remnant. */
  lemma SlowCreatorBreaksExclusion()
    ensures exists s :: Occurs(Hypotheses(false, true, true), s) && DoubleHold(s, 1, 2)
  {
    var h := Hypotheses(false, true, true);
    var s := Begun(h, None);
    s := Extend(h, s, Do(1, Create(true)));
    s := Extend(h, s, Tick(STALE_AFTER));
    s := FindAged(h, s, 2);
    s := ReapAged(h, s, 2);
    s := Acquire(h, s, 2);
    s := Record(h, s, 1);
    assert DoubleHold(s, 1, 2);
  }

  // ---------------------------------------------------------------------------------------
  // The exact condition

  lemma NextWeaker(h: Hypotheses, g: Hypotheses, p: State, s: State)
    requires Weaker(h, g) && Next(g, p, s)
    ensures Next(h, p, s)
  {
    var step :| Allowed(g, p, step) && Apply(p, step) == s;
    assert Allowed(h, p, step);
  }

  lemma {:induction false} FewerHypotheses(h: Hypotheses, g: Hypotheses, s: State, k: nat)
    requires Weaker(h, g) && Reachable(g, s, k)
    ensures Reachable(h, s, k)
    decreases k
  {
    if k > 0 {
      var p :| Reachable(g, p, k - 1) && Next(g, p, s);
      FewerHypotheses(h, g, p, k - 1);
      NextWeaker(h, g, p, s);
    }
  }

  ghost predicate AlwaysExclusive(h: Hypotheses) {
    forall s, k: nat :: Reachable(h, s, k) ==> MutualExclusion(s)
  }

  lemma BrokenUnder(h: Hypotheses, g: Hypotheses)
    requires Weaker(h, g) && exists s :: Occurs(g, s) && DoubleHold(s, 1, 2)
    ensures !AlwaysExclusive(h)
  {
    var s :| Occurs(g, s) && DoubleHold(s, 1, 2);
    var k: nat :| Reachable(g, s, k);
    FewerHypotheses(h, g, s, k);
    assert LiveOwner(s, 1) && LiveOwner(s, 2);
  }

  /** Two leases are never held at once, in any run, exactly if all three hypotheses are demanded. */
  lemma ExclusionExactly(h: Hypotheses)
    ensures AlwaysExclusive(h) <==> h == ALL
  {
    if h == ALL {
      forall s, k: nat | Reachable(h, s, k) ensures MutualExclusion(s) { MutualExclusionHolds(s, k); }
    } else if !h.timely {
      SlowCreatorBreaksExclusion();
      BrokenUnder(h, Hypotheses(false, true, true));
    } else if !h.noOverlap {
      OverlappingReapsBreakExclusion();
      BrokenUnder(h, Hypotheses(true, false, true));
    } else {
      RemovalAfterStatBreaksExclusion();
      BrokenUnder(h, Hypotheses(true, true, false));
    }
  }
}
