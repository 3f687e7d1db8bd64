/**
 Neither hypothesis of Supervisor can be dropped: for each one there is a run that satisfies the other
 and takes a child killed by a restart for one that ended by itself.  So killed children are always
 recognised exactly if both hold.
 */
module SupervisorLimits {
  import opened Supervisor
  import opened SupervisorSafety

  const QUIET := Signals(false, false, false, false)

  /** A supervisor with one publisher, at program counter `pc`. */
  function At(policy: Policy, g: Signals, l: Loop, pc: PubPc): State {
    State(Config(policy, false), g, l, map[0 := Publisher(false, 0, pc)])
  }

  /** The loop in a first attempt, after `started` children in all. */
  function Turn(started: nat, main: Main, monitor: Monitor, alive: set<nat>): Loop {
    Loop(main, 1, monitor, 0, alive, started, 0, [], false)
  }

  function First(main: Main, monitor: Monitor, alive: set<nat>): Loop {
    Turn(1, main, monitor, alive)
  }

  function Second(main: Main, monitor: Monitor, alive: set<nat>): Loop {
    Turn(2, main, monitor, alive)
  }

  const FIRST_RUNS := First(RunningChild(0), Watching, {0})
  const SECOND_RUNS := Second(RunningChild(1), Watching, {1})

  ghost predicate Occurs(h: Hypotheses, s: State) {
    exists k: nat :: Reachable(h, s, k)
  }

  lemma Extend(h: Hypotheses, p: State, step: Step, s: State)
    requires Occurs(h, p) && Allowed(h, p, step) && Apply(p, step) == s
    ensures Occurs(h, s)
  {
    var k: nat :| Reachable(h, p, k);
    assert Next(h, p, s);
    assert Reachable(h, s, k + 1);
  }

  /** One access of the loop; a decision needs an idle publisher if publications are whole. */
  lemma Walk(h: Hypotheses, policy: Policy, g: Signals, l: Loop, pc: PubPc, g': Signals, l': Loop)
    requires Occurs(h, At(policy, g, l, pc)) && Goes(l.main)
    requires Went(Config(policy, false), g, l, false) == (g', l')
    requires h.publications ==> pc.Idle?
    ensures Occurs(h, At(policy, g', l', pc))
  {
    Extend(h, At(policy, g, l, pc), Go(false), At(policy, g', l', pc));
  }

  lemma FirstRuns(h: Hypotheses, policy: Policy)
    ensures Occurs(h, At(policy, QUIET, FIRST_RUNS, Idle))
  {
    var start := At(policy, QUIET, Loop(Top, 0, Absent, 0, {}, 0, 0, [], false), Idle);
    assert Reachable(h, start, 0);
    Extend(h, start, StartChild(true), At(policy, QUIET, FIRST_RUNS, Idle));
  }

  /** The restart flag is set and the tokens are not sent. */
  lemma FlagSet(h: Hypotheses, policy: Policy, g: Signals, l: Loop)
    requires Occurs(h, At(policy, g, l, Idle)) && !g.stopRequested && (h.decisions ==> !Deciding(l.main))
    ensures Occurs(h, At(policy, g.(restartRequested := true), l, SendRestart))
  {
    Extend(h, At(policy, g, l, Idle), ReceiveRestart(0), At(policy, g, l, LoadStop));
    Extend(h, At(policy, g, l, LoadStop), Publish(0), At(policy, g, l, StoreRestart));
    Extend(h, At(policy, g, l, StoreRestart), Publish(0),
           At(policy, g.(restartRequested := true), l, SendRestart));
  }

  lemma TokensSent(h: Hypotheses, policy: Policy, g: Signals, l: Loop)
    requires Occurs(h, At(policy, g, l, SendRestart))
    ensures Occurs(h, At(policy, g.(restartCh := true, stopCh := true), l, Idle))
  {
    var half := At(policy, g.(restartCh := true), l, SendStop);
    Extend(h, At(policy, g, l, SendRestart), Publish(0), half);
    Extend(h, half, Publish(0), At(policy, g.(restartCh := true, stopCh := true), l, Idle));
  }

  /** A child has ended and cmd.Wait returned. */
  lemma Reaped(h: Hypotheses, policy: Policy, g: Signals, n: nat, monitor: Monitor, pc: PubPc)
    requires n > 0 && Occurs(h, At(policy, g, Turn(n, RunningChild(n - 1), monitor, {n - 1}), pc))
    ensures Occurs(h, At(policy, g, Turn(n, Waited(0), monitor, {}), pc))
  {
    var dead := At(policy, g, Turn(n, RunningChild(n - 1), monitor, {}), pc);
    Extend(h, At(policy, g, Turn(n, RunningChild(n - 1), monitor, {n - 1}), pc), ChildDies(n - 1), dead);
    Extend(h, dead, Wait(0), At(policy, g, Turn(n, Waited(0), monitor, {}), pc));
  }

  /** The first child ends by itself. */
  lemma FirstEnds(h: Hypotheses, policy: Policy, g: Signals, pc: PubPc)
    requires Occurs(h, At(policy, g, FIRST_RUNS, pc)) && (h.publications ==> pc.Idle?)
    ensures Occurs(h, At(policy, g, First(CheckStop(0, false), Absent, {}), pc))
  {
    Reaped(h, policy, g, 1, Watching, pc);
    Walk(h, policy, g, First(Waited(0), Watching, {}), pc, g, First(LoadKilled(0), Watching, {}));
    Walk(h, policy, g, First(LoadKilled(0), Watching, {}), pc, g, First(CheckStop(0, false), Absent, {}));
  }

  /** A token without a flag kills the second child. */
  lemma SecondKilled(h: Hypotheses, policy: Policy, r: bool)
    requires Occurs(h, At(policy, Signals(false, false, true, r), SECOND_RUNS, Idle))
    ensures Occurs(h, At(policy, Signals(false, false, false, r), Second(RunningChild(1), Fired, {1}), Idle))
  {
    var g := Signals(false, false, false, r);
    var taken := At(policy, g, Second(RunningChild(1), Taken, {1}), Idle);
    Extend(h, At(policy, g.(stopCh := true), SECOND_RUNS, Idle), MonitorTakes, taken);
    Extend(h, taken, MonitorFires, At(policy, g, Second(RunningChild(1), Fired, {1}), Idle));
  }

  /** No flag is found, and the killed child is taken for one that ended by itself. */
  lemma SecondMistaken(h: Hypotheses, policy: Policy, r: bool)
    requires Occurs(h, At(policy, Signals(false, false, false, r), Second(RunningChild(1), Fired, {1}), Idle))
    ensures Occurs(h, At(policy, Signals(false, false, false, r), Second(Decide(-1, true), Absent, {}), Idle))
  {
    var g := Signals(false, false, false, r);
    Reaped(h, policy, g, 2, Fired, Idle);
    Walk(h, policy, g, Second(Waited(0), Fired, {}), Idle, g, Second(LoadKilled(0), Fired, {}));
    Walk(h, policy, g, Second(LoadKilled(0), Fired, {}), Idle, g, Second(CheckStop(-1, true), Absent, {}));
    Walk(h, policy, g, Second(CheckStop(-1, true), Absent, {}), Idle, g, Second(CheckRestart(-1, true), Absent, {}));
    Walk(h, policy, g, Second(CheckRestart(-1, true), Absent, {}), Idle, g, Second(Decide(-1, true), Absent, {}));
  }

  // ---------------------------------------------------------------------------------------
  // A decision between flag and tokens

  const CUT_PUBLICATION := Hypotheses(false, true)
  const FLAGGED := QUIET.(restartRequested := true)

  /** The first child ends while a restart has set its flag and has not sent its tokens. */
  lemma EndsWithinPublication()
    ensures Occurs(CUT_PUBLICATION, At(Never, FLAGGED, First(CheckStop(0, false), Absent, {}), SendRestart))
  {
    FirstRuns(CUT_PUBLICATION, Never);
    FlagSet(CUT_PUBLICATION, Never, QUIET, FIRST_RUNS);
    FirstEnds(CUT_PUBLICATION, Never, FLAGGED, SendRestart);
  }

  /** The loop honours the flag. */
  lemma FlagHonoured()
    ensures Occurs(CUT_PUBLICATION, At(Never, QUIET, First(DrainRestart, Absent, {}), SendRestart))
  {
    var h, check := CUT_PUBLICATION, First(CheckRestart(0, false), Absent, {});
    EndsWithinPublication();
    Walk(h, Never, FLAGGED, First(CheckStop(0, false), Absent, {}), SendRestart, FLAGGED, check);
    Walk(h, Never, FLAGGED, check, SendRestart, FLAGGED, First(ClearRestart, Absent, {}));
    Walk(h, Never, FLAGGED, First(ClearRestart, Absent, {}), SendRestart, QUIET, First(DrainRestart, Absent, {}));
  }

  /** It drains two empty channels and starts the second child. */
  lemma FlagConsumed()
    ensures Occurs(CUT_PUBLICATION, At(Never, QUIET, SECOND_RUNS, SendRestart))
  {
    var h, top := CUT_PUBLICATION, First(Top, Absent, {}).(attempt := 0);
    FlagHonoured();
    Walk(h, Never, QUIET, First(DrainRestart, Absent, {}), SendRestart, QUIET, First(DrainStop, Absent, {}));
    Walk(h, Never, QUIET, First(DrainStop, Absent, {}), SendRestart, QUIET, top);
    Extend(h, At(Never, QUIET, top, SendRestart), StartChild(true), At(Never, QUIET, SECOND_RUNS, SendRestart));
  }

  /** The tokens arrive late, and the second child dies of the one meant for the first. */
  lemma LateTokenKills()
    ensures Occurs(CUT_PUBLICATION,
                   At(Never, QUIET.(restartCh := true), Second(Decide(-1, true), Absent, {}), Idle))
  {
    FlagConsumed();
    TokensSent(CUT_PUBLICATION, Never, QUIET, SECOND_RUNS);
    SecondKilled(CUT_PUBLICATION, Never, true);
    SecondMistaken(CUT_PUBLICATION, Never, true);
  }

  const ENDED := At(Never, QUIET.(restartCh := true), Second(Returned, Absent, {}).(exits := [Exit(-1, false)]), Idle)

  lemma RunEnds()
    ensures Occurs(CUT_PUBLICATION, ENDED)
  {
    var h, g, exiting := CUT_PUBLICATION, QUIET.(restartCh := true), Second(Exiting(-1, false, true), Absent, {});
    LateTokenKills();
    Walk(h, Never, g, Second(Decide(-1, true), Absent, {}), Idle, g, exiting);
    assert exiting.exits + [Exit(-1, false)] == ENDED.loop.exits;
    Walk(h, Never, g, exiting, Idle, g, ENDED.loop);
  }

  /** The run has returned, its only exit record says -1, and no stop was ever requested. */
  lemma CutRestartEndsRun()
    ensures exists s :: Occurs(CUT_PUBLICATION, s) && s.cfg == Config(Never, false) && s.loop.main.Returned?
                        && s.loop.exits == [Exit(-1, false)] && !s.signals.stopRequested
  {
    RunEnds();
    assert ENDED.loop.main.Returned?;
  }

  // ---------------------------------------------------------------------------------------
  // A restart within the wake-up from a backoff

  const CUT_DECISION := Hypotheses(true, false)

  /** The first child has ended, and the loop waits to start the next one. */
  lemma BacksOff()
    ensures Occurs(CUT_DECISION, At(Always, QUIET, First(Backoff(0), Absent, {}), Idle))
  {
    var h := CUT_DECISION;
    FirstRuns(h, Always);
    FirstEnds(h, Always, QUIET, Idle);
    Walk(h, Always, QUIET, First(CheckStop(0, false), Absent, {}), Idle,
         QUIET, First(CheckRestart(0, false), Absent, {}));
    Walk(h, Always, QUIET, First(CheckRestart(0, false), Absent, {}), Idle, QUIET, First(Decide(0, false), Absent, {}));
    Walk(h, Always, QUIET, First(Decide(0, false), Absent, {}), Idle, QUIET, First(Backoff(0), Absent, {}));
  }

  /** A whole restart ends the backoff. */
  lemma Wakes()
    ensures Occurs(CUT_DECISION, At(Always, Signals(false, true, false, true), First(WokenRestart, Absent, {}), Idle))
  {
    var h := CUT_DECISION;
    BacksOff();
    FlagSet(h, Always, QUIET, First(Backoff(0), Absent, {}));
    TokensSent(h, Always, QUIET.(restartRequested := true), First(Backoff(0), Absent, {}));
    var g := Signals(false, true, false, true);
    Extend(h, At(Always, g.(stopCh := true), First(Backoff(0), Absent, {}), Idle), TakeToken,
           At(Always, g, First(WokenStop(0), Absent, {}), Idle));
    Walk(h, Always, g, First(WokenStop(0), Absent, {}), Idle, g, First(WokenRestart, Absent, {}));
  }

  const PUBLISHED := Signals(false, true, true, true)

  /** A second whole restart comes before the flag of the first is cleared. */
  lemma SecondPublished()
    ensures Occurs(CUT_DECISION, At(Always, PUBLISHED, First(WokenRestart, Absent, {}), Idle))
  {
    Wakes();
    FlagSet(CUT_DECISION, Always, PUBLISHED.(stopCh := false), First(WokenRestart, Absent, {}));
    TokensSent(CUT_DECISION, Always, PUBLISHED.(stopCh := false), First(WokenRestart, Absent, {}));
  }

  /** The flag is cleared for both, and only restartCh is drained. */
  lemma FlagClearedForBoth()
    ensures Occurs(CUT_DECISION,
                   At(Always, QUIET.(stopCh := true), First(Top, Absent, {}).(attempt := 0), Idle))
  {
    var h, g, top := CUT_DECISION, PUBLISHED.(restartRequested := false), First(Top, Absent, {}).(attempt := 0);
    SecondPublished();
    Walk(h, Always, PUBLISHED, First(WokenRestart, Absent, {}), Idle, PUBLISHED, First(WokenClear, Absent, {}));
    Walk(h, Always, PUBLISHED, First(WokenClear, Absent, {}), Idle, g, First(WokenDrain, Absent, {}));
    Walk(h, Always, g, First(WokenDrain, Absent, {}), Idle, QUIET.(stopCh := true), top);
  }

  lemma TokenSurvivesWakeUp()
    ensures Occurs(CUT_DECISION, At(Always, QUIET.(stopCh := true), SECOND_RUNS, Idle))
  {
    FlagClearedForBoth();
    Extend(CUT_DECISION, At(Always, QUIET.(stopCh := true), First(Top, Absent, {}).(attempt := 0), Idle),
           StartChild(true), At(Always, QUIET.(stopCh := true), SECOND_RUNS, Idle));
  }

  /** The next child is killed with no flag set, although every restart was published as a whole. */
  lemma WakeUpTokenKills()
    ensures Occurs(CUT_DECISION, At(Always, QUIET, Second(Decide(-1, true), Absent, {}), Idle))
  {
    TokenSurvivesWakeUp();
    SecondKilled(CUT_DECISION, Always, false);
    SecondMistaken(CUT_DECISION, Always, false);
  }

  // ---------------------------------------------------------------------------------------
  // The exact condition

  /** `h` demands no more than `g`. */
  predicate Weaker(h: Hypotheses, g: Hypotheses) {
    (h.publications ==> g.publications) && (h.decisions ==> g.decisions)
  }

  lemma NextWeaker(h: Hypotheses, g: Hypotheses, p: State, s: State)
    requires Weaker(h, g) && Next(g, p, s)
    ensures Next(h, p, s)
  {
    var step :| Allowed(g, p, step) && Apply(p, step) == s;
    assert Allowed(h, p, step);
  }

  lemma {:induction false} FewerHypotheses(h: Hypotheses, g: Hypotheses, s: State, k: nat)
    requires Weaker(h, g) && Reachable(g, s, k)
    ensures Reachable(h, s, k)
    decreases k
  {
    if k > 0 {
      var p :| Reachable(g, p, k - 1) && Next(g, p, s);
      FewerHypotheses(h, g, p, k - 1);
      NextWeaker(h, g, p, s);
    }
  }

  ghost predicate KillsAlwaysFlagged(h: Hypotheses) {
    forall s, k: nat :: Reachable(h, s, k) ==> KillsAreFlagged(s)
  }

  lemma MistakenUnder(h: Hypotheses, g: Hypotheses, s: State)
    requires Weaker(h, g) && Occurs(g, s) && !KillsAreFlagged(s)
    ensures !KillsAlwaysFlagged(h)
  {
    var k: nat :| Reachable(g, s, k);
    FewerHypotheses(h, g, s, k);
  }

  /** Killed children are recognised in all runs exactly if restarts and decisions never cut into each other. */
  lemma KillsFlaggedExactly(h: Hypotheses)
    ensures KillsAlwaysFlagged(h) <==> h == BOTH
  {
    if h == BOTH {
      forall s, k: nat | Reachable(h, s, k) ensures KillsAreFlagged(s) { RestartNeverEndsRun(s, k); }
    } else if !h.publications {
      LateTokenKills();
      MistakenUnder(h, CUT_PUBLICATION,
                    At(Never, QUIET.(restartCh := true), Second(Decide(-1, true), Absent, {}), Idle));
    } else {
      WakeUpTokenKills();
      MistakenUnder(h, CUT_DECISION, At(Always, QUIET, Second(Decide(-1, true), Absent, {}), Idle));
    }
  }
}
