/**
 Requests that miss the loop: when a forced Restart, which kills the child before it signals the
 supervisor, ends the run instead, and when a stop whose publication has finished still leaves the next
 child unsignalled.
 */
module SupervisorRequests {
  import opened Supervisor
  import opened SupervisorSafety
  import opened SupervisorLimits

  // ---------------------------------------------------------------------------------------
  // Ways back to a running child

  ghost predicate CanReach(s: State, t: State) {
    exists n: nat :: Continues(s, t, n)
  }

  lemma Further(s: State, m: State, step: Step)
    requires CanReach(s, m) && Enabled(m, step)
    ensures CanReach(s, Apply(m, step))
  {
    var n: nat :| Continues(s, m, n);
    assert Allowed(NONE, m, step);
    assert Next(NONE, m, Apply(m, step));
    assert Continues(s, Apply(m, step), n + 1);
  }

  /** A restart that the loop has begun to honour. */
  predicate Honours(m: Main) {
    m.ClearRestart? || m.DrainRestart? || m.DrainStop?
  }

  /** The loop may get to its next turn. */
  predicate ComesAround(cfg: Config, m: Main) {
    || Honours(m) || m.Top? || m.Backoff? || m.WokenRestart? || m.WokenClear? || m.WokenDrain?
    || (m.Decide? && !EndsByPolicy(cfg, m.code))
  }

  function ToTop(m: Main): nat {
    match m
    case Top => 0
    case Backoff(_) => 1
    case DrainStop => 1
    case WokenDrain => 1
    case DrainRestart => 2
    case WokenClear => 2
    case Decide(_, _) => 2
    case ClearRestart => 3
    case _ => 3
  }

  /** A new child runs, and no token is there for its monitor. */
  predicate Unsignalled(s: State) {
    s.loop.main.RunningChild? && !s.signals.stopCh && s.loop.monitor.Watching?
  }

  /** One step towards the next turn. */
  lemma NearsTop(m: State) returns (step: Step)
    requires ComesAround(m.cfg, m.loop.main) && !m.loop.main.Top?
    ensures Enabled(m, step) && var t := Apply(m, step);
            && ComesAround(t.cfg, t.loop.main) && ToTop(t.loop.main) < ToTop(m.loop.main)
            && t.loop.started == m.loop.started
            && (Honours(m.loop.main) || !m.signals.stopCh ==> Honours(t.loop.main) || !t.signals.stopCh)
  {
    step := if m.loop.main.Backoff? then Timer else Go(false);
  }

  /** The loop can start another child; a token is gone by then if it was, or if a restart drained it. */
  lemma {:induction false} StartsAnother(s: State, m: State) returns (t: State)
    requires CanReach(s, m) && ComesAround(m.cfg, m.loop.main)
    ensures CanReach(s, t) && t.loop.started == m.loop.started + 1
    ensures Honours(m.loop.main) || !m.signals.stopCh ==> Unsignalled(t)
    decreases ToTop(m.loop.main)
  {
    if m.loop.main.Top? {
      Further(s, m, StartChild(true));
      t := Apply(m, StartChild(true));
    } else {
      var step := NearsTop(m);
      Further(s, m, step);
      t := StartsAnother(s, Apply(m, step));
    }
  }

  // ---------------------------------------------------------------------------------------
  // A forced restart

  /** The run has recorded this code as its natural end, or only has to do so. */
  predicate Ending(s: State, t: State, code: int) {
    && t.cfg == s.cfg && t.loop.started == s.loop.started
    && match t.loop.main
       case Decide(c, _) => c == code && EndsByPolicy(s.cfg, code) && t.loop.exits == s.loop.exits
       case Exiting(c, signal, natural) => c == code && !signal && natural && t.loop.exits == s.loop.exits
       case Removing => t.loop.exits == s.loop.exits + [Exit(code, false)]
       case Returned => t.loop.exits == s.loop.exits + [Exit(code, false)]
       case _ => false
  }

  /** Whatever follows, no child is started and the run ends with this code. */
  ghost predicate EndsWith(s: State, code: int) {
    forall t, n: nat :: Continues(s, t, n) ==> Ending(s, t, code)
  }

  lemma EndingKept(s: State, t: State, code: int, step: Step)
    requires Ending(s, t, code) && Enabled(t, step)
    ensures Ending(s, Apply(t, step), code)
  {
  }

  lemma {:induction false} EndingThroughout(s: State, t: State, n: nat, code: int)
    requires Ending(s, s, code) && Continues(s, t, n)
    ensures Ending(s, t, code)
    decreases n
  {
    if n > 0 {
      var m :| Continues(s, m, n - 1) && Next(NONE, m, t);
      EndingThroughout(s, m, n - 1, code);
      var step :| Allowed(NONE, m, step) && Apply(m, step) == t;
      EndingKept(s, m, code, step);
    }
  }

  lemma AnotherChildInstead(s: State, code: int)
    requires ComesAround(s.cfg, s.loop.main)
    ensures !EndsWith(s, code)
  {
    assert Continues(s, s, 0);
    var t := StartsAnother(s, s);
    var n: nat :| Continues(s, t, n);
  }

  /**
   A child that was killed for a restart has been waited for, and no stop was found.  The loop's one load
   of restartRequested decides: the run ends with the child's code, whatever is published afterwards,
   exactly if the flag is not set by then and the restart policy ends on that code.  Otherwise the loop
   can still start another child.
   */
  lemma ForcedRestartEndsRunExactly(s: State, lingers: bool)
    requires s.loop.main.CheckRestart?
    ensures EndsWith(Apply(s, Go(lingers)), s.loop.main.code)
            <==> !s.signals.restartRequested && EndsByPolicy(s.cfg, s.loop.main.code)
  {
    var code, m := s.loop.main.code, Apply(s, Go(lingers));
    if !s.signals.restartRequested && EndsByPolicy(s.cfg, code) {
      forall t, n: nat | Continues(m, t, n) ensures Ending(m, t, code) { EndingThroughout(m, t, n, code); }
    } else {
      AnotherChildInstead(m, code);
    }
  }

  /** The child is killed, and not by its monitor. */
  lemma KilledFirst()
    ensures Occurs(BOTH, At(Never, QUIET, First(LoadKilled(-1), Watching, {}), Idle))
  {
    FirstRuns(BOTH, Never);
    var dead := At(Never, QUIET, First(RunningChild(0), Watching, {}), Idle);
    Extend(BOTH, At(Never, QUIET, FIRST_RUNS, Idle), ChildDies(0), dead);
    Extend(BOTH, dead, Wait(-1), At(Never, QUIET, First(Waited(-1), Watching, {}), Idle));
    Walk(BOTH, Never, QUIET, First(Waited(-1), Watching, {}), Idle, QUIET, First(LoadKilled(-1), Watching, {}));
  }

  const DECIDING := First(Decide(-1, false), Absent, {})

  /** The loop finds no flag. */
  lemma NoFlagFound()
    ensures Occurs(BOTH, At(Never, QUIET, DECIDING, Idle))
  {
    var stop, restart := First(CheckStop(-1, false), Absent, {}), First(CheckRestart(-1, false), Absent, {});
    KilledFirst();
    Walk(BOTH, Never, QUIET, First(LoadKilled(-1), Watching, {}), Idle, QUIET, stop);
    Walk(BOTH, Never, QUIET, stop, Idle, QUIET, restart);
    Walk(BOTH, Never, QUIET, restart, Idle, QUIET, DECIDING);
  }

  /** The restart is received and about to set its flag. */
  lemma ReceivedTooLate()
    ensures Occurs(BOTH, At(Never, QUIET, DECIDING, StoreRestart))
  {
    NoFlagFound();
    Extend(BOTH, At(Never, QUIET, DECIDING, Idle), ReceiveRestart(0), At(Never, QUIET, DECIDING, LoadStop));
    Extend(BOTH, At(Never, QUIET, DECIDING, LoadStop), Publish(0), At(Never, QUIET, DECIDING, StoreRestart));
  }

  const KILLED := At(Never, QUIET, First(Returned, Absent, {}).(exits := [Exit(-1, false)]), StoreRestart)

  lemma KilledRunEnds()
    ensures Occurs(BOTH, KILLED)
  {
    ReceivedTooLate();
    var exiting := At(Never, QUIET, First(Exiting(-1, false, true), Absent, {}), StoreRestart);
    Extend(BOTH, At(Never, QUIET, DECIDING, StoreRestart), Go(false), exiting);
    assert exiting.loop.exits + [Exit(-1, false)] == KILLED.loop.exits;
    Extend(BOTH, exiting, Go(false), KILLED);
  }

  /** Under both hypotheses a forced restart can end the run with code -1, although no stop was requested. */
  lemma ForcedRestartEndsRun()
    ensures exists s :: Occurs(BOTH, s) && s.cfg == Config(Never, false) && s.loop.main.Returned?
                        && s.loop.exits == [Exit(-1, false)] && !s.signals.stopRequested
                        && 0 in s.pubs && s.pubs[0].pc.StoreRestart?
  {
    KilledRunEnds();
    assert KILLED.loop.main.Returned?;
  }

  // ---------------------------------------------------------------------------------------
  // A finished stop

  /** If a child runs, the stop token waits for its monitor, or the monitor has it. */
  predicate Signalled(s: State) {
    s.loop.main.RunningChild? ==> s.signals.stopCh || s.loop.monitor.Taken? || s.loop.monitor.Fired?
  }

  /** The publisher has passed its check for a stop and may still set the restart flag. */
  predicate MaySetFlag(pub: Publisher) {
    pub.pc.StoreRestart? || pub.pc.LoadRestart?
  }

  ghost predicate NoFlagComes(pubs: map<int, Publisher>) {
    forall p :: p in pubs ==> !MaySetFlag(pubs[p])
  }

  /** The token is there, and no monitor of an earlier child can take it. */
  predicate TokenStays(g: Signals, l: Loop) {
    g.stopCh && l.lingering == 0
  }

  predicate TokenInTime(cfg: Config, g: Signals, l: Loop) {
    match l.main
    case RunningChild(_) => l.monitor.Taken? || l.monitor.Fired? || TokenStays(g, l)
    case CheckRestart(code, _) => !g.restartRequested && (EndsByPolicy(cfg, code) || TokenStays(g, l))
    case m => ComesAround(cfg, m) ==> !Honours(m) && TokenStays(g, l)
  }

  /** No restart drains the token, and no monitor of an earlier child takes it, before it can matter. */
  ghost predicate TokenIsSafe(s: State) {
    TokenInTime(s.cfg, s.signals, s.loop) && (s.loop.main.CheckRestart? ==> NoFlagComes(s.pubs))
  }

  lemma TokenInTimeAfterGo(cfg: Config, g: Signals, l: Loop, lingers: bool)
    requires g.stopRequested && TokenInTime(cfg, g, l) && Goes(l.main)
    ensures var (g', l') := Went(cfg, g, l, lingers); TokenInTime(cfg, g', l') && !l'.main.CheckRestart?
  {
  }

  lemma TokenSafeAfterPublish(s: State, p: int)
    requires s.signals.stopRequested && TokenIsSafe(s) && Enabled(s, Publish(p))
    ensures TokenIsSafe(Apply(s, Publish(p)))
  {
  }

  lemma TokenIsSafeKept(s: State, step: Step)
    requires LoopOk(s) && s.signals.stopRequested && TokenIsSafe(s) && Enabled(s, step)
    ensures Apply(s, step).signals.stopRequested && TokenIsSafe(Apply(s, step))
  {
    match step
    case Go(lingers) => TokenInTimeAfterGo(s.cfg, s.signals, s.loop, lingers);
    case Publish(p) => TokenSafeAfterPublish(s, p);
    case _ =>
  }

  lemma {:induction false} SafeThroughout(s: State, t: State, n: nat)
    requires LoopOk(s) && s.signals.stopRequested && TokenIsSafe(s) && Continues(s, t, n)
    ensures LoopOk(t) && t.signals.stopRequested && TokenIsSafe(t)
    decreases n
  {
    if n > 0 {
      var m :| Continues(s, m, n - 1) && Next(NONE, m, t);
      SafeThroughout(s, m, n - 1);
      var step :| Allowed(NONE, m, step) && Apply(m, step) == t;
      TokenIsSafeKept(m, step);
      LoopInvKept(m, step);
    }
  }

  ghost predicate CanMiss(s: State) {
    exists t :: CanReach(s, t) && !Signalled(t)
  }

  /** A monitor of an earlier child takes the token. */
  lemma LingererMisses(s: State)
    requires s.signals.stopCh && s.loop.lingering > 0
    requires (s.loop.main.RunningChild? && !s.loop.monitor.Taken? && !s.loop.monitor.Fired?)
          || ComesAround(s.cfg, s.loop.main)
    ensures CanMiss(s)
  {
    assert Continues(s, s, 0);
    Further(s, s, LingeringTakes);
    var m := Apply(s, LingeringTakes);
    if s.loop.main.RunningChild? {
      assert !Signalled(m);
    } else {
      var t := StartsAnother(s, m);
      assert !Signalled(t);
    }
  }

  /** The loop finds the flag of a restart, and drains the token with that of the restart. */
  lemma DrainMisses(s: State, m: State)
    requires CanReach(s, m) && m.loop.main.CheckRestart? && m.signals.restartRequested
    ensures CanMiss(s)
  {
    Further(s, m, Go(false));
    var t := StartsAnother(s, Apply(m, Go(false)));
    assert !Signalled(t);
  }

  /** A restart that has passed its check for a stop sets its flag. */
  lemma FlagArrives(s: State, m: State, p: int)
    requires CanReach(s, m) && m.loop.main.CheckRestart? && p in m.pubs && m.pubs[p].pc.StoreRestart?
    ensures CanMiss(s)
  {
    Further(s, m, Publish(p));
    DrainMisses(s, Apply(m, Publish(p)));
  }

  lemma RestartMisses(s: State)
    requires s.loop.main.CheckRestart? && (s.signals.restartRequested || !NoFlagComes(s.pubs))
    ensures CanMiss(s)
  {
    assert Continues(s, s, 0);
    if s.signals.restartRequested {
      DrainMisses(s, s);
    } else {
      var p :| p in s.pubs && MaySetFlag(s.pubs[p]);
      if s.pubs[p].pc.LoadRestart? {
        Further(s, s, Publish(p));
        FlagArrives(s, Apply(s, Publish(p)), p);
      } else {
        FlagArrives(s, s, p);
      }
    }
  }

  lemma UnsafeMisses(s: State)
    requires s.signals.stopCh && !TokenIsSafe(s)
    ensures CanMiss(s)
  {
    assert Continues(s, s, 0);
    if s.loop.main.CheckRestart? && (s.signals.restartRequested || !NoFlagComes(s.pubs)) {
      RestartMisses(s);
    } else if s.loop.main.CheckRestart? {
      Further(s, s, LingeringTakes);
      var m := Apply(s, LingeringTakes);
      Further(s, m, Go(false));
      var t := StartsAnother(s, Apply(m, Go(false)));
      assert !Signalled(t);
    } else if Honours(s.loop.main) {
      var t := StartsAnother(s, s);
      assert !Signalled(t);
    } else {
      LingererMisses(s);
    }
  }

  ghost predicate AlwaysSignalled(s: State) {
    forall t, n: nat :: Continues(s, t, n) ==> Signalled(t)
  }

  lemma SafeSignals(s: State)
    requires LoopOk(s) && s.signals.stopRequested && TokenIsSafe(s)
    ensures AlwaysSignalled(s)
  {
    forall t, n: nat | Continues(s, t, n) ensures Signalled(t) { SafeThroughout(s, t, n); }
  }

  lemma MissDenies(s: State)
    requires CanMiss(s)
    ensures !AlwaysSignalled(s)
  {
    var t :| CanReach(s, t) && !Signalled(t);
    var n: nat :| Continues(s, t, n);
  }

  /**
   A stop has been published: flag and token are set.  In every continuation a running child has the
   token coming or its monitor has taken it, exactly if the loop is not honouring a restart and cannot
   come to, and no monitor of an earlier child is left that could take the token while it matters.
   */
  lemma StopSignalsChildExactly(s: State, k: nat)
    requires Reachable(NONE, s, k) && s.signals.stopRequested && s.signals.stopCh
    ensures AlwaysSignalled(s) <==> TokenIsSafe(s)
  {
    ReachableLoopInv(NONE, s, k);
    if TokenIsSafe(s) {
      SafeSignals(s);
    } else {
      UnsafeMisses(s);
      MissDenies(s);
    }
  }
}
