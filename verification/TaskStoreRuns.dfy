/**
 Undisturbed operations of TaskStore, from any state in which the locks that they need are free: what Run,
 Rename and SetLabels are meant to achieve, they can achieve.
 */
module TaskStoreRuns {
  import opened Wrappers
  import opened TaskStore
  import opened TaskStoreSafety

  // ---------------------------------------------------------------------------------------
  // Fewer hypotheses, more runs

  /** `h` demands no more than `g`. */
  predicate Weaker(h: Hypotheses, g: Hypotheses) {
    && (h.scans ==> g.scans) && (h.removals ==> g.removals)
    && (h.unlocks ==> g.unlocks) && (h.crashes ==> g.crashes)
  }

  lemma NextWeaker(h: Hypotheses, g: Hypotheses, s: State, t: State)
    requires Weaker(h, g) && Next(g, s, t)
    ensures Next(h, s, t)
  {
    var step :| Allowed(g, s, step) && Apply(s, step) == t;
    assert Allowed(h, s, step);
  }

  lemma {:induction false} FewerHypotheses(h: Hypotheses, g: Hypotheses, s: State, t: State, n: nat)
    requires Weaker(h, g) && Continues(g, s, t, n)
    ensures Continues(h, s, t, n)
    decreases n
  {
    if n > 0 {
      var m :| Continues(g, s, m, n - 1) && Next(g, m, t);
      FewerHypotheses(h, g, s, m, n - 1);
      NextWeaker(h, g, m, t);
    }
  }

  // ---------------------------------------------------------------------------------------
  // Runs of one operation at a time

  ghost predicate CanReach(h: Hypotheses, s: State, t: State) {
    exists n: nat :: Continues(h, s, t, n)
  }

  lemma Further(h: Hypotheses, s: State, m: State, step: Step, t: State)
    requires CanReach(h, s, m) && Allowed(h, m, step) && Apply(m, step) == t
    ensures CanReach(h, s, t)
  {
    var n: nat :| Continues(h, s, m, n);
    assert Next(h, m, t);
    assert Continues(h, s, t, n + 1);
  }

  /** The tasks of a world. */
  datatype Tasks = Tasks(env: Env, store: map<Id, Meta>, dirs: set<Id>, ids: set<Id>)

  /** Where the others stand: the locks that they hold, and all operations so far. */
  datatype Others = Others(global: Option<OpId>, locks: map<string, OpId>, ops: map<OpId, Op>)

  const NOBODY := Others(None, map[], map[])

  /** No operation but the others has locks. */
  function Quiet(d: Tasks, b: Others): State {
    State(World(d.env, d.store, d.dirs, d.ids, b.global, b.locks), b.ops)
  }

  /** Beside the others only operation `o` has locks. */
  function SoloWorld(d: Tasks, b: Others, o: OpId, op: Op): World {
    World(d.env, d.store, d.dirs, d.ids, if op.global then Some(o) else b.global,
          if op.lease.Some? then b.locks[LockKey(d.env, op.lease.value) := o] else b.locks)
  }

  function Solo(d: Tasks, b: Others, o: OpId, op: Op): State {
    State(SoloWorld(d, b, o, op), b.ops[o := op])
  }

  /** Where a run from `s` has got with operation `o`. */
  ghost predicate At(h: Hypotheses, s: State, d: Tasks, b: Others, o: OpId, op: Op) {
    && op.life.Lives? && CanReach(h, s, Solo(d, b, o, op))
    && (op.lease.Some? ==> LockKey(d.env, op.lease.value) !in b.locks)
    && (op.global ==> b.global.None?)
  }

  /** No read and no unlock fails, and no record goes into what is left of a removed task. */
  predicate Smooth(w: World, op: Op, a: Action) {
    !(a.Scan? && !a.ok) && !(Releases(op) && a == Advance(false)) && FindsRecord(w, op, a)
  }

  /** The locks that the operation waits for are free. */
  predicate FindsFree(d: Tasks, b: Others, op: Op) {
    match op.pc
    case WantGlobal => !op.global && b.global.None?
    case WantTask(id) => op.lease.None? && LockKey(d.env, id) !in b.locks
    case WantNew(id) => op.lease.None? && LockKey(d.env, id) !in b.locks
    case _ => true
  }

  /** The operation's next step. */
  lemma Does(h: Hypotheses, s: State, d: Tasks, b: Others, o: OpId, op: Op, a: Action, d': Tasks, op': Op)
    requires At(h, s, d, b, o, op) && Ready(SoloWorld(d, b, o, op), op, a) && op'.life.Lives?
    requires Smooth(SoloWorld(d, b, o, op), op, a)
    requires a.Acquire? ==> FindsFree(d, b, op)
    requires Effect(SoloWorld(d, b, o, op), o, op, a) == (SoloWorld(d', b, o, op'), op')
    requires op'.lease.Some? ==> op'.lease == op.lease || a.Acquire?
    requires op'.global ==> op.global || a.Acquire?
    ensures At(h, s, d', b, o, op')
  {
    var m := Solo(d, b, o, op);
    assert b.ops[o := op][o := op'] == b.ops[o := op'];
    Further(h, s, m, Do(o, a), Solo(d', b, o, op'));
    OwnRequest(SoloWorld(d, b, o, op), o, op, a);
  }

  /** The same for a step that leaves tasks and locks alone. */
  lemma Goes(h: Hypotheses, s: State, d: Tasks, b: Others, o: OpId, op: Op, a: Action, pc: Pc)
    requires At(h, s, d, b, o, op) && Ready(SoloWorld(d, b, o, op), op, a) && !a.Acquire?
    requires Smooth(SoloWorld(d, b, o, op), op, a)
    requires Effect(SoloWorld(d, b, o, op), o, op, a) == (SoloWorld(d, b, o, op), op.(pc := pc))
    ensures At(h, s, d, b, o, op.(pc := pc))
  {
    Does(h, s, d, b, o, op, a, d, op.(pc := pc));
  }

  lemma Locks(h: Hypotheses, s: State, d: Tasks, b: Others, o: OpId, op: Op, op': Op)
    requires At(h, s, d, b, o, op) && FindsFree(d, b, op)
    requires (op.pc.WantTask? || op.pc.WantNew?) && op' == Acquired(SoloWorld(d, b, o, op), o, op).1
    ensures At(h, s, d, b, o, op')
  {
    Does(h, s, d, b, o, op, Acquire, d, op');
  }

  lemma Unlocks(h: Hypotheses, s: State, d: Tasks, b: Others, o: OpId, op: Op, pc: Pc)
    requires At(h, s, d, b, o, op) && op.lease.Some?
    requires (op.pc.Finish? && pc.Finish?) || (op.pc.ReleaseOld? && pc.Create?)
    ensures At(h, s, d, b, o, op.(lease := None, pc := pc))
  {
    var lock := LockKey(d.env, op.lease.value);
    assert b.locks[lock := o] - {lock} == b.locks;
    Does(h, s, d, b, o, op, Advance(true), d, op.(lease := None, pc := pc));
  }

  function Finished(b: Others, o: OpId, r: Request): Others {
    b.(ops := b.ops[o := Op(r, Done, false, None, Lives)])
  }

  /** The end of an operation. */
  lemma Finishes(h: Hypotheses, s: State, d: Tasks, b: Others, o: OpId, op: Op)
    requires At(h, s, d, b, o, op) && op.pc.Finish? && op.lease.Some?
    ensures CanReach(h, s, Quiet(d, Finished(b, o, op.request)))
  {
    Unlocks(h, s, d, b, o, op, Finish);
    var free := op.(lease := None);
    if op.global {
      Does(h, s, d, b, o, free, Advance(true), d, free.(global := false));
    }
    Goes(h, s, d, b, o, free.(global := false), Advance(true), Done);
  }

  /** A new operation is submitted. */
  lemma Starts(h: Hypotheses, s: State, d: Tasks, b: Others, o: OpId, r: Request)
    requires CanReach(h, s, Quiet(d, b)) && o !in b.ops && ValidRequest(r)
    ensures At(h, s, d, b, o, Op(r, FirstPc(r), false, None, Lives))
  {
    Further(h, s, Quiet(d, b), Submit(o, r), Solo(d, b, o, Op(r, FirstPc(r), false, None, Lives)));
  }

  /** A new Run or Rename gets the store-wide lock. */
  lemma Begins(h: Hypotheses, s: State, d: Tasks, b: Others, o: OpId, r: Request)
    requires CanReach(h, s, Quiet(d, b)) && o !in b.ops && ValidRequest(r) && b.global.None?
    requires r.Run? || r.Rename?
    ensures At(h, s, d, b, o, Op(r, if r.Run? then ListTaken else TryID, true, None, Lives))
  {
    Starts(h, s, d, b, o, r);
    Does(h, s, d, b, o, Op(r, WantGlobal, false, None, Lives), Acquire,
         d, Op(r, if r.Run? then ListTaken else TryID, true, None, Lives));
  }

  /** IsNameTaken reads every task that is still to do and finds none with the name. */
  lemma {:induction false} ScansOn(h: Hypotheses, s: State, d: Tasks, b: Others, o: OpId, op: Op, todo: set<Id>)
    requires At(h, s, d, b, o, op.(pc := ScanTaken(todo))) && NameFree(d.store, WantedName(op.request))
    ensures At(h, s, d, b, o, op.(pc := ScanTaken({})))
    decreases |todo|
  {
    if todo != {} {
      var id :| id in todo;
      Goes(h, s, d, b, o, op.(pc := ScanTaken(todo)), Scan(id, true), ScanTaken(todo - {id}));
      ScansOn(h, s, d, b, o, op, todo - {id});
    }
  }

  lemma FindsNameFree(h: Hypotheses, s: State, d: Tasks, b: Others, o: OpId, op: Op)
    requires At(h, s, d, b, o, op) && op.pc.ListTaken? && NameFree(d.store, WantedName(op.request))
    ensures At(h, s, d, b, o, op.(pc := NamePc(op, false)))
  {
    Goes(h, s, d, b, o, op, List(true), ScanTaken(d.dirs));
    ScansOn(h, s, d, b, o, op, d.dirs);
    Goes(h, s, d, b, o, op.(pc := ScanTaken({})), ScanEnd, NamePc(op, false));
  }

  // ---------------------------------------------------------------------------------------
  // Run creates a task

  function Made(d: Tasks, id: Id, name: string): Tasks {
    d.(store := d.store[d.env.fold(id) := Meta(id, d.env.stored(name), [], 0)],
       dirs := d.dirs + {d.env.fold(id)}, ids := d.ids + {d.env.fold(id)})
  }

  /** The ID can be generated, and its directory is new. */
  predicate Fresh(d: Tasks, id: Id) {
    LooksGenerated(id) && d.env.fold(id) !in d.ids
  }

  function RunOf(name: string): Request {
    Run(name, [], 0, false)
  }

  lemma RunMakes(h: Hypotheses, s: State, d: Tasks, b: Others, o: OpId, name: string, id: Id)
    requires CanReach(h, s, Quiet(d, b)) && o !in b.ops && b.global.None?
    requires ValidName(name) && NameFree(d.store, name) && Fresh(d, id)
    ensures At(h, s, Made(d, id, name), b, o, Op(RunOf(name), WantNew(id), true, None, Lives))
  {
    var op := Op(RunOf(name), ListTaken, true, None, Lives);
    Begins(h, s, d, b, o, op.request);
    FindsNameFree(h, s, d, b, o, op);
    Does(h, s, d, b, o, op.(pc := Create), Make(id), Made(d, id, name), op.(pc := WantNew(id)));
  }

  lemma RunLaunches(h: Hypotheses, s: State, d: Tasks, b: Others, o: OpId, op: Op, id: Id)
    requires At(h, s, d, b, o, op.(pc := WantNew(id))) && op.request.Run? && op.global && op.lease.None?
    requires LockKey(d.env, id) !in b.locks
    ensures CanReach(h, s, Quiet(d, Finished(b, o, op.request)))
  {
    var locked := op.(pc := ReleaseGlobal(id), lease := Some(id));
    Locks(h, s, d, b, o, op.(pc := WantNew(id)), locked);
    var launching := locked.(pc := Launch(id), global := false);
    Does(h, s, d, b, o, locked, Advance(true), d, launching);
    Goes(h, s, d, b, o, launching, Advance(true), Finish);
    Finishes(h, s, d, b, o, launching.(pc := Finish));
  }

  lemma RunCreates(h: Hypotheses, s: State, d: Tasks, b: Others, o: OpId, name: string, id: Id)
    requires CanReach(h, s, Quiet(d, b)) && o !in b.ops && b.global.None? && LockKey(d.env, id) !in b.locks
    requires ValidName(name) && NameFree(d.store, name) && Fresh(d, id)
    ensures CanReach(h, s, Quiet(Made(d, id, name), Finished(b, o, RunOf(name))))
  {
    RunMakes(h, s, d, b, o, name, id);
    RunLaunches(h, s, Made(d, id, name), b, o, Op(RunOf(name), WantNew(id), true, None, Lives), id);
  }

  // ---------------------------------------------------------------------------------------
  // Rename and SetLabels rewrite a record

  function Renamed(d: Tasks, dir: Id, name: string): Tasks
    requires dir in d.store
  {
    d.(store := d.store[dir := d.store[dir].(name := d.env.stored(name))])
  }

  /** Rename resolves a reference, locks the task and re-reads it. */
  lemma RenameLocks(h: Hypotheses, s: State, d: Tasks, b: Others, o: OpId, ref: string, name: string)
    requires CanReach(h, s, Quiet(d, b)) && o !in b.ops && b.global.None? && LockKey(d.env, ref) !in b.locks
    requires d.env.fold(ref) in d.store && ValidName(name) && d.store[d.env.fold(ref)].name != name
    ensures At(h, s, d, b, o, Op(Rename(ref, name), ListTaken, true, Some(ref), Lives))
  {
    var op := Op(Rename(ref, name), TryID, true, None, Lives);
    Begins(h, s, d, b, o, op.request);
    Goes(h, s, d, b, o, op, Advance(true), WantTask(ref));
    var locked := op.(pc := Reread(ref), lease := Some(ref));
    Locks(h, s, d, b, o, op.(pc := WantTask(ref)), locked);
    Goes(h, s, d, b, o, locked, Advance(true), ListTaken);
  }

  /** Rename is about to write. */
  lemma RenameReads(h: Hypotheses, s: State, d: Tasks, b: Others, o: OpId, ref: string, name: string)
    requires CanReach(h, s, Quiet(d, b)) && o !in b.ops && b.global.None? && LockKey(d.env, ref) !in b.locks
    requires d.env.fold(ref) in d.store && ValidName(name) && NameFree(d.store, name)
    ensures At(h, s, d, b, o,
               Op(Rename(ref, name), WriteBack(ref, d.store[d.env.fold(ref)]), true, Some(ref), Lives))
  {
    var op := Op(Rename(ref, name), ListTaken, true, Some(ref), Lives);
    RenameLocks(h, s, d, b, o, ref, name);
    FindsNameFree(h, s, d, b, o, op);
    Goes(h, s, d, b, o, op.(pc := ReadForWrite(ref)), Advance(true), WriteBack(ref, d.store[d.env.fold(ref)]));
  }

  lemma RenameRenames(h: Hypotheses, s: State, d: Tasks, b: Others, o: OpId, ref: string, dir: Id, name: string)
    requires CanReach(h, s, Quiet(d, b)) && o !in b.ops && b.global.None? && LockKey(d.env, ref) !in b.locks
    requires dir == d.env.fold(ref) && dir in d.store && dir in d.dirs && d.env.fold(d.store[dir].id) == dir
    requires ValidName(name) && NameFree(d.store, name)
    ensures CanReach(h, s, Quiet(Renamed(d, dir, name), Finished(b, o, Rename(ref, name))))
  {
    var op := Op(Rename(ref, name), WriteBack(ref, d.store[dir]), true, Some(ref), Lives);
    RenameReads(h, s, d, b, o, ref, name);
    Does(h, s, d, b, o, op, Advance(true), Renamed(d, dir, name), op.(pc := Finish));
    Finishes(h, s, Renamed(d, dir, name), b, o, op.(pc := Finish));
  }

  /** SetLabels resolves a reference and locks the task. */
  lemma SetLabelsLocks(h: Hypotheses, s: State, d: Tasks, b: Others, o: OpId, ref: string, labels: seq<string>)
    requires CanReach(h, s, Quiet(d, b)) && o !in b.ops && LockKey(d.env, ref) !in b.locks
    requires d.env.fold(ref) in d.store
    ensures At(h, s, d, b, o, Op(SetLabels(ref, labels), Reread(ref), false, Some(ref), Lives))
  {
    var op := Op(SetLabels(ref, labels), TryID, false, None, Lives);
    Starts(h, s, d, b, o, op.request);
    Goes(h, s, d, b, o, op, Advance(true), WantTask(ref));
    Locks(h, s, d, b, o, op.(pc := WantTask(ref)), op.(pc := Reread(ref), lease := Some(ref)));
  }

  /** SetLabels is about to write. */
  lemma SetLabelsReads(h: Hypotheses, s: State, d: Tasks, b: Others, o: OpId, ref: string, labels: seq<string>)
    requires CanReach(h, s, Quiet(d, b)) && o !in b.ops && LockKey(d.env, ref) !in b.locks
    requires d.env.fold(ref) in d.store
    ensures At(h, s, d, b, o,
               Op(SetLabels(ref, labels), WriteBack(ref, d.store[d.env.fold(ref)]), false, Some(ref), Lives))
  {
    var op := Op(SetLabels(ref, labels), Reread(ref), false, Some(ref), Lives);
    SetLabelsLocks(h, s, d, b, o, ref, labels);
    Goes(h, s, d, b, o, op, Advance(true), ReadForWrite(ref));
    Goes(h, s, d, b, o, op.(pc := ReadForWrite(ref)), Advance(true), WriteBack(ref, d.store[d.env.fold(ref)]));
  }

  function Labelled(d: Tasks, dir: Id, labels: seq<string>): Tasks
    requires dir in d.store
  {
    d.(store := d.store[dir := d.store[dir].(labels := labels)])
  }

  lemma SetLabelsSets(h: Hypotheses, s: State, d: Tasks, b: Others, o: OpId, ref: string, dir: Id, labels: seq<string>)
    requires CanReach(h, s, Quiet(d, b)) && o !in b.ops && LockKey(d.env, ref) !in b.locks
    requires dir == d.env.fold(ref) && dir in d.store && dir in d.dirs && d.env.fold(d.store[dir].id) == dir
    ensures CanReach(h, s, Quiet(Labelled(d, dir, labels), Finished(b, o, SetLabels(ref, labels))))
  {
    var op := Op(SetLabels(ref, labels), WriteBack(ref, d.store[dir]), false, Some(ref), Lives);
    SetLabelsReads(h, s, d, b, o, ref, labels);
    Does(h, s, d, b, o, op, Advance(true), Labelled(d, dir, labels), op.(pc := Finish));
    Finishes(h, s, Labelled(d, dir, labels), b, o, op.(pc := Finish));
  }

  // ---------------------------------------------------------------------------------------
  // Names that nobody has

  lemma {:induction false} LongerThanAll(names: set<string>) returns (n: nat)
    ensures forall x :: x in names ==> |x| < n
  {
    n := 0;
    if names != {} {
      var x :| x in names;
      n := LongerThanAll(names - {x});
      n := if |x| < n then n else |x| + 1;
    }
  }

  lemma LettersAreValid(n: nat)
    ensures ValidName(seq(n + 1, _ => 'a'))
  {
    var name := seq(n + 1, _ => 'a');
    assert !Space(name[0]);
    assert |name| == 24 ==> name[..8][0] == 'a';
  }

  lemma NewName(d: Tasks, other: string) returns (name: string)
    ensures ValidName(name) && NameFree(d.store, name) && name != other
  {
    var names := set x | x in d.store :: d.store[x].name;
    var n := LongerThanAll({other} + names);
    name := seq(n + 1, _ => 'a');
    LettersAreValid(n);
    assert forall x :: x in d.store ==> d.store[x].name in names;
  }

  /** The tasks of an idle state. */
  function TasksOf(w: World): Tasks {
    Tasks(w.env, w.store, w.dirs, w.ids)
  }

  lemma IdleIsQuiet(h: Hypotheses, s: State)
    requires Idle(s)
    ensures CanReach(h, s, Quiet(TasksOf(s.world), NOBODY))
  {
    assert Continues(h, s, Quiet(TasksOf(s.world), NOBODY), 0);
  }

  /** Where an operation that holds a task lock, and perhaps the store-wide lock, is one of the others. */
  function Joined(d: Tasks, b: Others, o: OpId, op: Op): Others {
    Others(if op.global then Some(o) else b.global,
           if op.lease.Some? then b.locks[LockKey(d.env, op.lease.value) := o] else b.locks, b.ops[o := op])
  }

  lemma Joins(h: Hypotheses, s: State, d: Tasks, b: Others, o: OpId, op: Op)
    requires At(h, s, d, b, o, op)
    ensures CanReach(h, s, Quiet(d, Joined(d, b, o, op)))
  {
    assert Solo(d, b, o, op) == Quiet(d, Joined(d, b, o, op));
  }
}
