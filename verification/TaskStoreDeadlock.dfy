/** Runs of TaskStore that get stuck: there are none exactly if unlocks succeed and crashes show. */
module TaskStoreDeadlock {
  import opened Wrappers
  import opened TaskStore
  import opened TaskStoreSafety
  import opened TaskStoreRuns

  const PLAIN := Env((x: string) => x, (x: string) => x)
  const EMPTY := State(World(PLAIN, map[], {}, {}, None, map[]), map[])
  const RENAME := Rename("a", "b")

  /** The first Rename has the store-wide lock, or has had it, and the second one waits. */
  function Blocked(pc: Pc, global: bool, life: Life): State {
    State(World(PLAIN, map[], {}, {}, Some(1), map[]),
          map[1 := Op(RENAME, pc, global, None, life), 2 := Op(RENAME, WantGlobal, false, None, Lives)])
  }

  lemma FirstHolds(h: Hypotheses)
    ensures Idle(EMPTY) && CanReach(h, EMPTY, Blocked(TryID, true, Lives))
  {
    assert Continues(h, EMPTY, EMPTY, 0);
    assert "b"[0] == 'b' && !Space('b') && ValidName("b");
    var waiting := Op(RENAME, WantGlobal, false, None, Lives);
    var one := EMPTY.(ops := map[1 := waiting]);
    Further(h, EMPTY, EMPTY, Submit(1, RENAME), one);
    var two := EMPTY.(ops := map[1 := waiting, 2 := waiting]);
    Further(h, EMPTY, one, Submit(2, RENAME), two);
    Further(h, EMPTY, two, Do(1, Acquire), Blocked(TryID, true, Lives));
  }

  lemma BlockedForever(life: Life)
    requires !life.Crashed?
    ensures Unfinished(Blocked(Done, false, life), 2) && !GoesOn(Blocked(Done, false, life))
    ensures life.Stuck? ==> Unfinished(Blocked(TryID, true, life), 2) && !GoesOn(Blocked(TryID, true, life))
  {
  }

  /** It finds no such task. */
  lemma FirstFinishes(h: Hypotheses)
    ensures CanReach(h, EMPTY, Blocked(Finish, true, Lives))
  {
    FirstHolds(h);
    Further(h, EMPTY, Blocked(TryID, true, Lives), Do(1, Advance(true)), Blocked(ListResolve, true, Lives));
    Further(h, EMPTY, Blocked(ListResolve, true, Lives), Do(1, List(false)), Blocked(Finish, true, Lives));
  }

  /** Its unlock gives up. */
  lemma UnlockGivesUp(h: Hypotheses)
    requires !h.unlocks
    ensures CanReach(h, EMPTY, Blocked(Finish, false, Lives))
  {
    FirstFinishes(h);
    Further(h, EMPTY, Blocked(Finish, true, Lives), Do(1, Advance(false)), Blocked(Finish, false, Lives));
  }

  /** It is done, but its lock file stays. */
  lemma FailedUnlockBlocks(h: Hypotheses)
    requires !h.unlocks
    ensures CanReach(h, EMPTY, Blocked(Done, false, Lives))
  {
    UnlockGivesUp(h);
    Further(h, EMPTY, Blocked(Finish, false, Lives), Do(1, Advance(true)), Blocked(Done, false, Lives));
  }

  /** It crashes, and its PID is reused by a process that cannot be told apart. */
  lemma StuckHolderBlocks(h: Hypotheses)
    requires !h.crashes
    ensures CanReach(h, EMPTY, Blocked(TryID, true, Stuck))
  {
    FirstHolds(h);
    Further(h, EMPTY, Blocked(TryID, true, Lives), Crash(1, Stuck), Blocked(TryID, true, Stuck));
  }

  ghost predicate AlwaysGoesOn(h: Hypotheses) {
    forall s, t, n: nat, o :: Idle(s) && Continues(h, s, t, n) && Unfinished(t, o) ==> GoesOn(t)
  }

  /** No run gets stuck exactly if no unlock gives up and every crashed holder can be found dead. */
  lemma NoDeadlockExactly(h: Hypotheses)
    ensures AlwaysGoesOn(h) <==> h.unlocks && h.crashes
  {
    if h.unlocks && h.crashes {
      forall s, t, n: nat, o | Idle(s) && Continues(h, s, t, n) && Unfinished(t, o) ensures GoesOn(t) {
        FewerHypotheses(GO_ON, h, s, t, n);
        NoDeadlock(s, t, n, o);
      }
    } else {
      FirstHolds(h);
      var t := if h.unlocks then Blocked(TryID, true, Stuck) else Blocked(Done, false, Lives);
      BlockedForever(if h.unlocks then Stuck else Lives);
      if h.unlocks { StuckHolderBlocks(h); } else { FailedUnlockBlocks(h); }
      var n: nat :| Continues(h, EMPTY, t, n);
    }
  }
}
