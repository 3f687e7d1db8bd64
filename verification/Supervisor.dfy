/**
 supervisor.Run of internal/supervisor/supervisor.go: the main loop, the monitor goroutine of each
 child, and any number of goroutines that publish stops and restarts (the signal handler, the
 control-file poller and the health check), as a transition system.

 Each atomic flag access, channel operation and system call is one step.  Both channels have
 capacity one and are only sent to without blocking, so each is a Boolean.
 */
module Supervisor {
  datatype Policy = Never | Always | OnFailure

  datatype Config = Config(policy: Policy, autoRm: bool)

  /** What a publishing goroutine is about to do. */
  datatype PubPc =
    | Idle
    | LoadStop          // SIGHUP or "restart" received; next: load stopRequested
    | StoreRestart      // next: restartRequested.Store(true)
    | SendRestart       // next: restartCh <- {}
    | SendStop          // next: stopCh <- {}
    | Checking          // health: the check command runs
    | LoadStopHealth    // health: third failure; next: load stopRequested
    | LoadRestart       // health: next: load restartRequested

  datatype Publisher = Publisher(health: bool, failures: nat, pc: PubPc)

  /** The monitor goroutine of the current child. */
  datatype Monitor = Absent | Watching | Taken | Fired   // Taken: token received; next: killed.Store(true)

  datatype Main =
    | Top
    | RunningChild(child: nat)
    | Waited(code: int)              // cmd.Wait returned; next: close(done)
    | LoadKilled(code: int)          // next: killed.Load()
    | CheckStop(code: int, killed: bool)
    | CheckRestart(code: int, killed: bool)
    | ClearRestart                 // flag found set; next: restartRequested.Store(false)
    | DrainRestart
    | DrainStop
    | Decide(code: int, killed: bool)
    | Backoff(code: int)
    | WokenStop(code: int)           // a token ended the backoff; next: load stopRequested
    | WokenRestart                   // next: load restartRequested
    | WokenClear
    | WokenDrain
    | Exiting(code: int, signal: bool, natural: bool)  // next: WriteExit
    | Removing
    | Returned

  datatype Exit = Exit(code: int, signal: bool)

  /** The two atomic flags and the two channels of capacity one. */
  datatype Signals = Signals(stopRequested: bool, restartRequested: bool, stopCh: bool, restartCh: bool)

  /** The main loop, its current monitor, and what it has done to the world. */
  datatype Loop = Loop(
    main: Main, attempt: nat,
    monitor: Monitor,
    lingering: nat,                  // monitors of earlier children that have not looked at done yet
    alive: set<nat>,                 // children running now
    started: nat,                    // children started so far
    startsAfterStop: nat,            // turns of the loop begun with stopRequested set
    exits: seq<Exit>,                // WriteExit attempts
    removed: bool)

  datatype State = State(cfg: Config, signals: Signals, loop: Loop, pubs: map<int, Publisher>)

  datatype Step =
    | ReceiveStop(p: int)            // SIGTERM, SIGINT or "stop": flag set; next: send
    | ReceiveRestart(p: int)
    | HealthTick(p: int)
    | HealthResult(p: int, ok: bool)
    | Publish(p: int)                // the publisher's next access
    | StartChild(ok: bool)
    | ChildDies(child: nat)
    | Wait(code: int)
    | MonitorTakes
    | MonitorFires
    | LingeringTakes                 // an old monitor picks the token instead of done
    | LingeringEnds
    | Timer
    | TakeToken
    | Go(lingers: bool)              // the main loop's next access

  /** Program counters at which the loop takes its next access by itself. */
  predicate Goes(m: Main) {
    !m.Top? && !m.RunningChild? && !m.Backoff? && !m.Returned?
  }

  predicate Enabled(s: State, step: Step) {
    var l := s.loop;
    match step
    case ReceiveStop(p) => p in s.pubs && !s.pubs[p].health && s.pubs[p].pc.Idle?
    case ReceiveRestart(p) => p in s.pubs && !s.pubs[p].health && s.pubs[p].pc.Idle?
    case HealthTick(p) => p in s.pubs && s.pubs[p].health && s.pubs[p].pc.Idle?
    case HealthResult(p, _) => p in s.pubs && s.pubs[p].pc.Checking?
    case Publish(p) => p in s.pubs && !s.pubs[p].pc.Idle? && !s.pubs[p].pc.Checking?
    case StartChild(_) => l.main.Top?
    case ChildDies(c) => c in l.alive
    case Wait(_) => l.main.RunningChild? && l.main.child !in l.alive
    case MonitorTakes => s.signals.stopCh && l.monitor.Watching?
    case MonitorFires => l.monitor.Taken?
    case LingeringTakes => s.signals.stopCh && l.lingering > 0
    case LingeringEnds => l.lingering > 0
    case Timer => l.main.Backoff?
    case TakeToken => l.main.Backoff? && s.signals.stopCh
    case Go(_) => Goes(l.main)
  }

  /** Health restarts need a restart policy. */
  predicate Restarts(cfg: Config) {
    cfg.policy.Always? || cfg.policy.OnFailure?
  }

  /** One access of a publisher that is not idle. */
  function Published(g: Signals, pub: Publisher): (Signals, Publisher) {
    match pub.pc
    case LoadStop => (g, pub.(pc := if g.stopRequested then Idle else StoreRestart))
    case LoadStopHealth => (g, pub.(pc := if g.stopRequested then Idle else LoadRestart))
    case LoadRestart => (g, pub.(pc := if g.restartRequested then Idle else StoreRestart))
    case StoreRestart => (g.(restartRequested := true), pub.(pc := SendRestart))
    case SendRestart => (g.(restartCh := true), pub.(pc := SendStop))
    case SendStop => (g.(stopCh := true), pub.(pc := Idle, failures := 0))
    case _ => (g, pub)
  }

  function HealthChecked(cfg: Config, pub: Publisher, ok: bool): Publisher {
    if ok then pub.(failures := 0, pc := Idle)
    else pub.(failures := pub.failures + 1,
              pc := if Restarts(cfg) && pub.failures + 1 >= 3 then LoadStopHealth else Idle)
  }

  /** What follows once the child has ended and neither flag was found set. */
  function Decided(cfg: Config, code: int): Main {
    if cfg.policy.Always? || (cfg.policy.OnFailure? && code != 0) then Backoff(code)
    else Exiting(code, false, true)
  }

  /** The turn of the loop that begins: runChild starts a child or fails to. */
  function Started(g: Signals, l: Loop, ok: bool): Loop {
    var n := if g.stopRequested then l.startsAfterStop + 1 else l.startsAfterStop;
    if ok then
      l.(attempt := l.attempt + 1, startsAfterStop := n, main := RunningChild(l.started),
         started := l.started + 1, alive := l.alive + {l.started}, monitor := Watching)
    else l.(attempt := l.attempt + 1, startsAfterStop := n, main := CheckStop(-1, false))
  }

  /** One access of the loop after the child has ended. */
  function Went(cfg: Config, g: Signals, l: Loop, lingers: bool): (Signals, Loop) {
    match l.main
    case Waited(code) => (g, l.(main := LoadKilled(code)))
    case LoadKilled(code) =>
      var killed := l.monitor.Fired?;
      (g, l.(main := CheckStop(if killed then -1 else code, killed), monitor := Absent,
             lingering := if l.monitor.Watching? && lingers then l.lingering + 1 else l.lingering))
    case CheckStop(code, killed) =>
      (g, l.(main := if g.stopRequested then Exiting(code, true, false) else CheckRestart(code, killed)))
    case CheckRestart(code, killed) =>
      (g, l.(main := if g.restartRequested then ClearRestart else Decide(code, killed)))
    case ClearRestart => (g.(restartRequested := false), l.(main := DrainRestart))
    case DrainRestart => (g.(restartCh := false), l.(main := DrainStop))
    case DrainStop => (g.(stopCh := false), l.(main := Top, attempt := 0))
    case Decide(code, _) => (g, l.(main := Decided(cfg, code)))
    case WokenStop(code) => (g, l.(main := if g.stopRequested then Exiting(code, false, false) else WokenRestart))
    case WokenRestart => (g, l.(main := if g.restartRequested then WokenClear else Top))
    case WokenClear => (g.(restartRequested := false), l.(main := WokenDrain))
    case WokenDrain => (g.(restartCh := false), l.(main := Top, attempt := 0))
    case Exiting(code, signal, natural) =>
      (g, l.(main := if natural && cfg.autoRm then Removing else Returned, exits := l.exits + [Exit(code, signal)]))
    case Removing => (g, l.(main := Returned, removed := true))
    case _ => (g, l)
  }

  function WithPub(s: State, p: int, pub: Publisher): State {
    s.(pubs := s.pubs[p := pub])
  }

  function Apply(s: State, step: Step): State
    requires Enabled(s, step)
  {
    var g, l := s.signals, s.loop;
    match step
    case ReceiveStop(p) => WithPub(s, p, s.pubs[p].(pc := SendStop)).(signals := g.(stopRequested := true))
    case ReceiveRestart(p) => WithPub(s, p, s.pubs[p].(pc := LoadStop))
    case HealthTick(p) =>
      WithPub(s, p, if g.restartRequested then s.pubs[p].(failures := 0) else s.pubs[p].(pc := Checking))
    case HealthResult(p, ok) => WithPub(s, p, HealthChecked(s.cfg, s.pubs[p], ok))
    case Publish(p) => var (g', pub) := Published(g, s.pubs[p]); WithPub(s, p, pub).(signals := g')
    case StartChild(ok) => s.(loop := Started(g, l, ok))
    case ChildDies(c) => s.(loop := l.(alive := l.alive - {c}))
    case Wait(code) => s.(loop := l.(main := Waited(code)))
    case MonitorTakes => s.(signals := g.(stopCh := false), loop := l.(monitor := Taken))
    case MonitorFires => s.(loop := l.(monitor := Fired))
    case LingeringTakes => s.(signals := g.(stopCh := false), loop := l.(lingering := l.lingering - 1))
    case LingeringEnds => s.(loop := l.(lingering := l.lingering - 1))
    case Timer => s.(loop := l.(main := Top))
    case TakeToken => s.(signals := g.(stopCh := false), loop := l.(main := WokenStop(l.main.code)))
    case Go(lingers) => var (g', l') := Went(s.cfg, g, l, lingers); s.(signals := g', loop := l')
  }

  // ---------------------------------------------------------------------------------------
  // Runs

  ghost predicate Init(s: State) {
    && s.signals == Signals(false, false, false, false)
    && s.loop == Loop(Top, 0, Absent, 0, {}, 0, 0, [], false)
    && forall p :: p in s.pubs ==> s.pubs[p].pc.Idle? && s.pubs[p].failures == 0
  }

  /** Between the flag and the last token of a stop or restart. */
  predicate Publishing(pub: Publisher) {
    pub.pc.SendRestart? || pub.pc.SendStop?
  }

  /** Between the first and the last access of the decision after a child or after a wake-up. */
  predicate Deciding(m: Main) {
    || m.CheckRestart? || m.ClearRestart? || m.DrainRestart? || m.DrainStop? || m.Decide?
    || m.WokenStop? || m.WokenRestart? || m.WokenClear? || m.WokenDrain?
  }

  /** The step takes part in such a decision. */
  predicate DecisionStep(s: State, step: Step) {
    step.TakeToken? || (step.Go? && (s.loop.main.CheckStop? || Deciding(s.loop.main)))
  }

  /** The step sets the restart flag. */
  predicate RestartFlagStep(s: State, step: Step) {
    step.Publish? && step.p in s.pubs && s.pubs[step.p].pc.StoreRestart?
  }

  /** Until a stop is requested, no decision is taken between the flag and the tokens of a restart. */
  ghost predicate WholePublications(s: State, step: Step) {
    !s.signals.stopRequested && DecisionStep(s, step) ==> forall p :: p in s.pubs ==> !Publishing(s.pubs[p])
  }

  /** Until a stop is requested, no restart sets its flag within a decision. */
  predicate WholeDecisions(s: State, step: Step) {
    !s.signals.stopRequested && RestartFlagStep(s, step) ==> !Deciding(s.loop.main)
  }

  /** Which of the two hypotheses a run is known to satisfy. */
  datatype Hypotheses = Hypotheses(publications: bool, decisions: bool)

  const NONE := Hypotheses(false, false)
  const BOTH := Hypotheses(true, true)

  ghost predicate Allowed(h: Hypotheses, s: State, step: Step) {
    && Enabled(s, step)
    && (h.publications ==> WholePublications(s, step))
    && (h.decisions ==> WholeDecisions(s, step))
  }

  ghost predicate Next(h: Hypotheses, p: State, s: State) {
    exists step :: Allowed(h, p, step) && Apply(p, step) == s
  }

  /** State `s` ends a run of `k` steps, all allowed under `h`. */
  ghost predicate Reachable(h: Hypotheses, s: State, k: nat)
    decreases k
  {
    if k == 0 then Init(s)
    else exists p :: Reachable(h, p, k - 1) && Next(h, p, s)
  }

  /** What holds initially and is kept by every step holds in every run. */
  lemma {:induction false} HoldsThroughout(h: Hypotheses, inv: State -> bool, s: State, k: nat)
    requires forall t :: Init(t) ==> inv(t)
    requires forall p, t :: inv(p) && Next(h, p, t) ==> inv(t)
    requires Reachable(h, s, k)
    ensures inv(s)
    decreases k
  {
    if k > 0 {
      var p :| Reachable(h, p, k - 1) && Next(h, p, s);
      HoldsThroughout(h, inv, p, k - 1);
    }
  }

  /** State `t` comes `n` steps after `s`. */
  ghost predicate Continues(s: State, t: State, n: nat)
    decreases n
  {
    if n == 0 then s == t
    else exists m :: Continues(s, m, n - 1) && Next(NONE, m, t)
  }

  // ---------------------------------------------------------------------------------------
  // Backoff

  function Shifted(shift: nat): nat {
    if shift == 0 then 1 else 2 * Shifted(shift - 1)
  }

  /** computeDelay, in seconds; `fixed` is RestartDelay. */
  function ComputeDelay(fixed: nat, attempt: nat): nat
    requires attempt >= 1
  {
    if fixed > 0 then fixed
    else
      var shift := if attempt - 1 > 6 then 6 else attempt - 1;
      var d := Shifted(shift);
      if d > 60 then 60 else d
  }
}
