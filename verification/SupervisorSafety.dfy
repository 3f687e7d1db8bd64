/** What every run of the supervisor keeps. */
module SupervisorSafety {
  import opened Supervisor

  // ---------------------------------------------------------------------------------------
  // Invariants

  /** A child's monitor is there until its kill flag has been loaded. */
  predicate HasMonitor(m: Main) {
    m.RunningChild? || m.Waited? || m.LoadKilled?
  }

  predicate HasEnded(m: Main) {
    m.Removing? || m.Returned?
  }

  /** The rest of a turn of the loop that begins after a stop request. */
  predicate LastTurn(m: Main) {
    HasMonitor(m) || m.CheckStop? || m.Exiting? || HasEnded(m)
  }

  /** Holds in every run, however restarts and decisions cut into each other. */
  ghost predicate LoopInv(g: Signals, l: Loop) {
    && (forall c :: c in l.alive ==> l.main.RunningChild? && c == l.main.child)
    && (l.startsAfterStop > 0 ==> g.stopRequested && l.startsAfterStop == 1 && LastTurn(l.main))
    && |l.exits| == (if HasEnded(l.main) then 1 else 0)
    && (!l.main.Top? ==> l.attempt >= 1)
    && (HasMonitor(l.main) <==> !l.monitor.Absent?)
  }

  predicate Flagged(g: Signals) {
    g.stopRequested || g.restartRequested
  }

  ghost predicate NonePublishing(pubs: map<int, Publisher>) {
    forall p :: p in pubs ==> !Publishing(pubs[p])
  }

  /** If restarts and decisions do not cut into each other, a token or a kill comes with a set flag. */
  ghost predicate TokenInv(g: Signals, l: Loop) {
    && (g.stopCh && !l.main.DrainRestart? && !l.main.DrainStop? ==> Flagged(g))
    && (l.monitor.Taken? || l.monitor.Fired? ==> Flagged(g))
    && (l.main.CheckStop? && l.main.killed ==> Flagged(g))
    && (l.main.CheckRestart? && l.main.killed ==> g.restartRequested)
    && (l.main.Decide? ==> !l.main.killed)
    && (l.main.WokenStop? || l.main.WokenRestart? || l.main.WokenClear? || l.main.WokenDrain?
        ==> !g.stopCh || g.stopRequested)
  }

  ghost predicate PubInv(s: State) {
    && (Deciding(s.loop.main) ==> NonePublishing(s.pubs) || s.signals.stopRequested)
    && (!Flagged(s.signals) ==> NonePublishing(s.pubs))
  }

  lemma LoopInvAfterExit(cfg: Config, g: Signals, l: Loop, lingers: bool)
    requires LoopInv(g, l) && (l.main.Exiting? || l.main.Removing?)
    ensures var (g', l') := Went(cfg, g, l, lingers); LoopInv(g', l')
  {
  }

  lemma LoopInvAfterGo(cfg: Config, g: Signals, l: Loop, lingers: bool)
    requires LoopInv(g, l) && Goes(l.main)
    ensures var (g', l') := Went(cfg, g, l, lingers); LoopInv(g', l')
  {
    if l.main.Exiting? || l.main.Removing? { LoopInvAfterExit(cfg, g, l, lingers); }
  }

  ghost predicate LoopOk(s: State) {
    LoopInv(s.signals, s.loop)
  }

  lemma LoopInvKept(s: State, step: Step)
    requires LoopOk(s) && Enabled(s, step)
    ensures LoopOk(Apply(s, step))
  {
    match step
    case Go(lingers) => LoopInvAfterGo(s.cfg, s.signals, s.loop, lingers);
    case _ =>
  }

  lemma TokenInvAfterGo(cfg: Config, g: Signals, l: Loop, lingers: bool)
    requires LoopInv(g, l) && TokenInv(g, l) && Goes(l.main)
    ensures var (g', l') := Went(cfg, g, l, lingers); TokenInv(g', l')
  {
  }

  ghost predicate TokenOk(s: State) {
    TokenInv(s.signals, s.loop) && PubInv(s)
  }

  lemma TokenInvKept(s: State, step: Step)
    requires LoopOk(s) && TokenOk(s) && Allowed(BOTH, s, step)
    ensures var t := Apply(s, step); TokenInv(t.signals, t.loop)
  {
    match step
    case Go(lingers) => TokenInvAfterGo(s.cfg, s.signals, s.loop, lingers);
    case _ =>
  }

  lemma PubInvKept(s: State, step: Step)
    requires PubInv(s) && Allowed(BOTH, s, step)
    ensures PubInv(Apply(s, step))
  {
  }

  lemma TokenOkKept(s: State, step: Step)
    requires LoopOk(s) && TokenOk(s) && Allowed(BOTH, s, step)
    ensures TokenOk(Apply(s, step))
  {
    TokenInvKept(s, step);
    PubInvKept(s, step);
  }

  lemma InitOk(s: State)
    requires Init(s)
    ensures LoopOk(s) && TokenOk(s)
  {
  }

  lemma NextLoopOk(h: Hypotheses, p: State, s: State)
    requires LoopOk(p) && Next(h, p, s)
    ensures LoopOk(s)
  {
    var step :| Allowed(h, p, step) && Apply(p, step) == s;
    LoopInvKept(p, step);
  }

  lemma NextTokenOk(p: State, s: State)
    requires LoopOk(p) && TokenOk(p) && Next(BOTH, p, s)
    ensures LoopOk(s) && TokenOk(s)
  {
    var step :| Allowed(BOTH, p, step) && Apply(p, step) == s;
    LoopInvKept(p, step);
    TokenOkKept(p, step);
  }

  lemma ReachableLoopInv(h: Hypotheses, s: State, k: nat)
    requires Reachable(h, s, k)
    ensures LoopOk(s)
  {
    forall t | Init(t) ensures LoopOk(t) { InitOk(t); }
    forall p, t | LoopOk(p) && Next(h, p, t) ensures LoopOk(t) { NextLoopOk(h, p, t); }
    HoldsThroughout(h, LoopOk, s, k);
  }

  ghost predicate TokensOk(s: State) {
    LoopOk(s) && TokenOk(s)
  }

  lemma ReachableTokenInv(s: State, k: nat)
    requires Reachable(BOTH, s, k)
    ensures TokensOk(s)
  {
    forall t | Init(t) ensures TokensOk(t) { InitOk(t); }
    forall p, t | TokensOk(p) && Next(BOTH, p, t) ensures TokensOk(t) { NextTokenOk(p, t); }
    HoldsThroughout(BOTH, TokensOk, s, k);
  }

  // ---------------------------------------------------------------------------------------
  // Main results

  /** Two children never run at once, and a new one starts only when none is left. */
  lemma OneChildAtATime(s: State, k: nat)
    requires Reachable(NONE, s, k)
    ensures forall c, d :: c in s.loop.alive && d in s.loop.alive ==> c == d
    ensures forall ok :: Enabled(s, StartChild(ok)) ==> s.loop.alive == {}
  {
    ReachableLoopInv(NONE, s, k);
  }

  /** How far the loop is from returning in its last turn. */
  function Remaining(m: Main): nat {
    match m
    case RunningChild(_) => 6
    case Waited(_) => 5
    case LoadKilled(_) => 4
    case CheckStop(_, _) => 3
    case Exiting(_, _, _) => 2
    case Removing => 1
    case Returned => 0
    case _ => 7
  }

  lemma LastTurnGoes(cfg: Config, g: Signals, l: Loop, lingers: bool)
    requires Goes(l.main) && g.stopRequested && LastTurn(l.main)
    ensures var (_, l') := Went(cfg, g, l, lingers);
            LastTurn(l'.main) && Remaining(l'.main) < Remaining(l.main) && l'.started == l.started
  {
  }

  /**
   A stop request stays.  Once it finds the loop in a turn that has a child to wait for, or none any
   more, no step of whoever it may be starts a child, and the loop stays where it is or comes nearer to
   its return.  This holds in every state, so it holds from the request to the end of every run.
   */
  lemma StopIsFinal(s: State, step: Step)
    requires Enabled(s, step) && s.signals.stopRequested && LastTurn(s.loop.main)
    ensures var m, m' := s.loop.main, Apply(s, step).loop.main;
            && !step.StartChild? && Apply(s, step).loop.started == s.loop.started
            && LastTurn(m') && (m' == m || Remaining(m') < Remaining(m))
            && (step.Go? && m.CheckStop? ==> m' == Exiting(m.code, true, false))
            && Apply(s, step).signals.stopRequested
  {
    if step.Go? { LastTurnGoes(s.cfg, s.signals, s.loop, step.lingers); }
  }

  /** At most one turn of the loop begins after a stop request, and it is the last one. */
  lemma OneTurnAfterStop(s: State, k: nat)
    requires Reachable(NONE, s, k)
    ensures s.loop.startsAfterStop <= 1
    ensures s.loop.startsAfterStop == 1 ==> s.signals.stopRequested && LastTurn(s.loop.main)
  {
    ReachableLoopInv(NONE, s, k);
  }

  /** How far a run has come since a stop request was pending in state `s`. */
  ghost predicate SinceStop(s: State, t: State) {
    && t.signals.stopRequested && s.loop.started <= t.loop.started <= s.loop.started + 1
    && (LastTurn(s.loop.main) ==> LastTurn(t.loop.main) && t.loop.started == s.loop.started)
    && (t.loop.started > s.loop.started ==> LastTurn(t.loop.main))
  }

  lemma SinceStopKept(s: State, t: State, step: Step)
    requires SinceStop(s, t) && Enabled(t, step)
    ensures SinceStop(s, Apply(t, step))
  {
    if LastTurn(t.loop.main) { StopIsFinal(t, step); }
  }

  lemma {:induction false} ContinuesSinceStop(s: State, t: State, n: nat)
    requires s.signals.stopRequested && Continues(s, t, n)
    ensures SinceStop(s, t)
    decreases n
  {
    if n > 0 {
      var m :| Continues(s, m, n - 1) && Next(NONE, m, t);
      ContinuesSinceStop(s, m, n - 1);
      var step :| Allowed(NONE, m, step) && Apply(m, step) == t;
      SinceStopKept(s, m, step);
    }
  }

  /**
   Whatever follows a pending stop request, at most one more child is started, and none if the request
   arrived while a child ran; after the last one the loop never gets back to its top.
   */
  lemma AtMostOneChildAfterStop(s: State, t: State, n: nat)
    requires s.signals.stopRequested && Continues(s, t, n)
    ensures t.signals.stopRequested
    ensures t.loop.started <= s.loop.started + (if LastTurn(s.loop.main) then 0 else 1)
    ensures LastTurn(s.loop.main) || t.loop.started > s.loop.started ==> LastTurn(t.loop.main)
  {
    ContinuesSinceStop(s, t, n);
  }

  /** A run that returns has attempted exactly one WriteExit, when no child was left; nothing starts after it. */
  lemma ExitWrittenOnce(s: State, k: nat)
    requires Reachable(NONE, s, k)
    ensures s.loop.main.Returned? ==> |s.loop.exits| == 1
    ensures s.loop.main.Exiting? ==> s.loop.exits == [] && s.loop.alive == {}
    ensures s.loop.exits != [] ==> s.loop.alive == {} && (s.loop.main.Removing? || s.loop.main.Returned?)
    ensures s.loop.exits != [] ==> forall ok :: !Enabled(s, StartChild(ok))
  {
    ReachableLoopInv(NONE, s, k);
  }

  /** A child killed by a token is not taken for one that ended by itself. */
  predicate KillsAreFlagged(s: State) {
    s.loop.main.Decide? ==> !s.loop.main.killed
  }

  /** A token comes with a set flag, so a restart is never taken for a child that ended by itself. */
  lemma RestartNeverEndsRun(s: State, k: nat)
    requires Reachable(BOTH, s, k)
    ensures KillsAreFlagged(s)
    ensures s.loop.main.CheckStop? && s.loop.main.killed ==> Flagged(s.signals)
    ensures s.signals.stopCh && !s.loop.main.DrainRestart? && !s.loop.main.DrainStop? ==> Flagged(s.signals)
  {
    ReachableTokenInv(s, k);
  }

  /** The restart policy lets the run end with this exit code. */
  predicate EndsByPolicy(cfg: Config, code: int) {
    cfg.policy.Never? || (cfg.policy.OnFailure? && code == 0)
  }

  /** Why the run ends, or has ended. */
  ghost predicate EndInv(cfg: Config, g: Signals, l: Loop) {
    && (l.main.Exiting? ==>
          && (if l.main.natural then EndsByPolicy(cfg, l.main.code) && !l.main.signal else g.stopRequested))
    && (forall i :: 0 <= i < |l.exits| ==>
          && (l.exits[i].signal ==> g.stopRequested)
          && (g.stopRequested || EndsByPolicy(cfg, l.exits[i].code)))
    && (l.main.Removing? || l.removed ==> cfg.autoRm && forall i :: 0 <= i < |l.exits| ==>
          EndsByPolicy(cfg, l.exits[i].code) && !l.exits[i].signal)
    && (l.removed ==> l.main.Returned?)
  }

  lemma EndInvAfterGo(cfg: Config, g: Signals, l: Loop, lingers: bool)
    requires EndInv(cfg, g, l) && LoopInv(g, l) && Goes(l.main)
    ensures var (g', l') := Went(cfg, g, l, lingers); EndInv(cfg, g', l')
  {
  }

  /** A health check that publishes a restart has failed three times in a row, under a restart policy. */
  ghost predicate HealthInv(s: State) {
    forall p :: p in s.pubs && s.pubs[p].health && !s.pubs[p].pc.Idle? && !s.pubs[p].pc.Checking? ==>
      Restarts(s.cfg) && s.pubs[p].failures >= 3
  }

  ghost predicate EndOk(s: State) {
    EndInv(s.cfg, s.signals, s.loop) && HealthInv(s)
  }

  lemma EndOkKept(s: State, step: Step)
    requires LoopOk(s) && EndOk(s) && Enabled(s, step)
    ensures EndOk(Apply(s, step))
  {
    match step
    case Go(lingers) => EndInvAfterGo(s.cfg, s.signals, s.loop, lingers);
    case _ =>
  }

  lemma InitEndOk(s: State)
    requires Init(s)
    ensures EndOk(s)
  {
  }

  lemma NextEndOk(p: State, s: State)
    requires LoopOk(p) && EndOk(p) && Next(NONE, p, s)
    ensures EndOk(s)
  {
    var step :| Allowed(NONE, p, step) && Apply(p, step) == s;
    EndOkKept(p, step);
  }

  ghost predicate EndsOk(s: State) {
    LoopOk(s) && EndOk(s)
  }

  lemma ReachableEndInv(s: State, k: nat)
    requires Reachable(NONE, s, k)
    ensures EndsOk(s)
  {
    forall t | Init(t) ensures EndsOk(t) {
      InitOk(t);
      InitEndOk(t);
    }
    forall p, t | EndsOk(p) && Next(NONE, p, t) ensures EndsOk(t) {
      NextLoopOk(NONE, p, t);
      NextEndOk(p, t);
    }
    HoldsThroughout(NONE, EndsOk, s, k);
  }

  /**
   Without a stop request a run ends only as its restart policy says: never under `always`, only with
   exit code 0 under `on-failure`.  SIGTERM is recorded only for a stop.  The task directory is removed
   only for an --rm task whose run ended by policy.
   */
  lemma OnlyPolicyEndsRun(s: State, k: nat)
    requires Reachable(NONE, s, k)
    ensures s.loop.main.Returned? || s.loop.removed ==> |s.loop.exits| == 1
    ensures s.loop.main.Returned? && !s.signals.stopRequested ==> EndsByPolicy(s.cfg, s.loop.exits[0].code)
    ensures s.loop.main.Returned? && s.loop.exits[0].signal ==> s.signals.stopRequested
    ensures s.loop.removed ==> s.cfg.autoRm && EndsByPolicy(s.cfg, s.loop.exits[0].code) && !s.loop.exits[0].signal
  {
    ReachableEndInv(s, k);
  }

  /** Only three failed checks in a row, under a restart policy, make the health check ask for a restart. */
  lemma UnhealthyNeedsThreeFailures(s: State, k: nat, p: int)
    requires Reachable(NONE, s, k) && p in s.pubs && s.pubs[p].health
    requires s.pubs[p].pc.StoreRestart? || Publishing(s.pubs[p])
    ensures Restarts(s.cfg) && s.pubs[p].failures >= 3
  {
    ReachableEndInv(s, k);
  }

  lemma {:induction false} ShiftedGrows(a: nat, b: nat)
    requires a <= b
    ensures 1 <= Shifted(a) <= Shifted(b)
  {
    if b > 0 {
      ShiftedGrows(if a > 0 then a - 1 else 0, b - 1);
    }
  }

  /**
   The capped shift loses nothing: without RestartDelay the delay before attempt n is 2^(n-1) seconds,
   at most 60; and every backoff has an attempt number of at least 1.
   */
  lemma DelayIsCappedDoubling(s: State, k: nat, attempt: nat)
    requires Reachable(NONE, s, k)
    ensures s.loop.main.Decide? ==> s.loop.attempt >= 1
    ensures attempt >= 1 ==>
              ComputeDelay(0, attempt) == if Shifted(attempt - 1) > 60 then 60 else Shifted(attempt - 1)
  {
    ReachableLoopInv(NONE, s, k);
    if attempt >= 7 {
      ShiftedGrows(6, attempt - 1);
      assert Shifted(6) == 64;
    }
  }
}
