/**
 Runs of TaskStore that break a property without any crash: from every idle store that has a trap, and from
 every idle store once a hypothesis is not demanded.
 */
module TaskStoreTraps {
  import opened Wrappers
  import opened TaskStore
  import opened TaskStoreSafety
  import opened TaskStoreRuns

  /** Some run leads to two tasks of one name. */
  ghost predicate Duplicates(h: Hypotheses, s: State) {
    exists t :: CanReach(h, s, t) && !UniqueNames(t.world.store)
  }

  // ---------------------------------------------------------------------------------------
  // A name that is not stored as given

  /** Run looks for the name as given and finds the stored forms only. */
  lemma UnstoredNameDuplicates(h: Hypotheses, s: State, name: string, f: Id, g: Id)
    requires Idle(s) && ValidName(name) && s.world.env.stored(name) != name
    requires var d := TasksOf(s.world); Fresh(d, f) && Fresh(d, g) && d.env.fold(f) != d.env.fold(g)
    ensures Duplicates(h, s)
  {
    var d := TasksOf(s.world);
    IdleIsQuiet(h, s);
    assert d.env.stored(d.env.stored(name)) == d.env.stored(name);
    RunCreates(h, s, d, NOBODY, 1, name, f);
    RunMakes(h, s, Made(d, f, name), Finished(NOBODY, 1, RunOf(name)), 2, name, g);
    var t := Made(Made(d, f, name), g, name);
    assert t.store[d.env.fold(f)].name == t.store[d.env.fold(g)].name;
  }

  // ---------------------------------------------------------------------------------------
  // A stray record

  /** A record that names another directory which is there. */
  predicate StraysTo(d: Tasks, dir: Id, to: Id) {
    && dir in d.store && to in d.store && to in d.dirs && dir != to
    && d.env.fold(dir) == dir && d.env.fold(d.store[dir].id) == to
  }

  /** One SetLabels writes the record to the directory that it names. */
  lemma Strayed(h: Hypotheses, s: State, d: Tasks, b: Others, dir: Id, to: Id) returns (b': Others)
    requires CanReach(h, s, Quiet(d, b)) && b == NOBODY && dir in d.store && to in d.dirs && to != dir
    requires d.env.fold(dir) == dir && d.env.fold(d.store[dir].id) == to
    ensures CanReach(h, s, Quiet(d.(store := d.store[to := d.store[dir].(labels := [])]), b'))
    ensures b'.locks == map[] && b'.global.None? && 2 !in b'.ops
  {
    var op := Op(SetLabels(dir, []), WriteBack(dir, d.store[dir]), false, Some(dir), Lives);
    SetLabelsReads(h, s, d, b, 1, dir, []);
    var d' := d.(store := d.store[to := d.store[dir].(labels := [])]);
    Does(h, s, d, b, 1, op, Advance(true), d', op.(pc := Finish));
    Finishes(h, s, d', b, 1, op.(pc := Finish));
    b' := Finished(b, 1, SetLabels(dir, []));
  }

  /** If the other directory has no record yet, a SetLabels brings one; if it may only come, a Run creates it. */
  lemma StrayArises(h: Hypotheses, s: State) returns (d: Tasks, b: Others, dir: Id, to: Id)
    requires Idle(s) && !NoStrayRecord(s.world)
    ensures CanReach(h, s, Quiet(d, b)) && b.locks == map[] && b.global.None? && 2 !in b.ops && StraysTo(d, dir, to)
  {
    d, b := TasksOf(s.world), NOBODY;
    IdleIsQuiet(h, s);
    dir :| dir in d.store && !AtHome(s.world, dir) && Reaches(s.world, d.store[dir]);
    to := d.env.fold(d.store[dir].id);
    if to in d.dirs {
      b := Strayed(h, s, d, b, dir, to);
      d := d.(store := d.store[to := d.store[dir].(labels := [])]);
    } else {
      var id :| LooksGenerated(id) && d.env.fold(id) == to;
      var name := NewName(d, "");
      RunCreates(h, s, d, b, 1, name, id);
      d, b := Made(d, id, name), Finished(b, 1, RunOf(name));
    }
  }

  /** One SetLabels overwrites the record of the other task, name included. */
  lemma StrayRecordDuplicates(h: Hypotheses, s: State)
    requires Idle(s) && !NoStrayRecord(s.world)
    ensures Duplicates(h, s)
  {
    var d, b, dir, to := StrayArises(h, s);
    var op := Op(SetLabels(dir, []), WriteBack(dir, d.store[dir]), false, Some(dir), Lives);
    SetLabelsReads(h, s, d, b, 2, dir, []);
    var d' := d.(store := d.store[to := d.store[dir].(labels := [])]);
    Does(h, s, d, b, 2, op, Advance(true), d', op.(pc := Finish));
    assert d'.store[dir].name == d'.store[to].name;
  }

  /** In some run a record ends up other than its committed edits leave it. */
  ghost predicate LosesUpdate(h: Hypotheses, s: State) {
    exists m, t, n: nat, steps, dir ::
      Continues(h, s, m, n) && Leads(h, m, steps, t) && dir in m.world.store && dir in t.world.store
      && t.world.store[dir] != Replay(m, steps, dir, m.world.store[dir])
  }

  lemma LostBy(h: Hypotheses, s: State, m: State, step: Step, dir: Id)
    requires CanReach(h, s, m) && Allowed(h, m, step)
    requires dir in m.world.store && dir in Apply(m, step).world.store
    requires Apply(m, step).world.store[dir]
          != if Commits(m, step, dir) then Edited(m.world.env, m.ops[step.o].request, m.world.store[dir])
             else m.world.store[dir]
    ensures LosesUpdate(h, s)
  {
    var n: nat :| Continues(h, s, m, n);
    var t, rest := Apply(m, step), [step][1..];
    assert rest == [] && Leads(h, t, rest, t);
    assert Leads(h, m, [step], t) && t.world.store[dir] != Replay(m, [step], dir, m.world.store[dir]);
  }

  lemma StrayRecordLosesUpdate(h: Hypotheses, s: State)
    requires Idle(s) && !NoStrayRecord(s.world)
    ensures LosesUpdate(h, s)
  {
    var d, b, dir, to := StrayArises(h, s);
    var labels := d.store[to].labels + ["x"];
    SetLabelsReads(h, s, d, b, 2, dir, labels);
    var op := Op(SetLabels(dir, labels), WriteBack(dir, d.store[dir]), false, Some(dir), Lives);
    LostBy(h, s, Solo(d, b, 2, op), Do(2, Advance(true)), to);
  }

  // ---------------------------------------------------------------------------------------
  // A task with two locks

  /** Two references open one task and lock two files. */
  predicate TwoLocks(d: Tasks, x: string, y: string, dir: Id) {
    && dir in d.store && dir in d.dirs && d.env.fold(d.store[dir].id) == dir
    && d.env.fold(x) == dir && d.env.fold(y) == dir && LockKey(d.env, x) != LockKey(d.env, y)
  }

  lemma TwoLocksArise(h: Hypotheses, s: State) returns (d: Tasks, b: Others, x: string, y: string, dir: Id)
    requires Idle(s) && !OneLockEach(s.world)
    ensures CanReach(h, s, Quiet(d, b)) && TwoLocks(d, x, y, dir) && d.env == s.world.env
    ensures b.locks == map[] && b.global.None? && forall o :: o in b.ops ==> o == 1
    ensures d.ids <= s.world.ids + {dir}
  {
    d, b := TasksOf(s.world), NOBODY;
    IdleIsQuiet(h, s);
    dir :| ((dir in d.store && AtHome(s.world, dir)) || Creatable(s.world, dir)) && !SharesLock(d.env, dir);
    x, y :| d.env.fold(x) == dir && d.env.fold(y) == dir && LockKey(d.env, x) != LockKey(d.env, y);
    if Creatable(s.world, dir) {
      var id :| LooksGenerated(id) && d.env.fold(id) == dir;
      var name := NewName(d, "");
      RunCreates(h, s, d, b, 1, name, id);
      d, b := Made(d, id, name), Finished(b, 1, RunOf(name));
    }
  }

  /** An operation that has read the task under one lock, and the labels that another sets under the other. */
  lemma LabelsChange(h: Hypotheses, s: State, d: Tasks, b: Others, x: string, y: string, dir: Id, op: Op)
    returns (m: State)
    requires b.locks == map[] && TwoLocks(d, x, y, dir) && At(h, s, d, b, 2, op) && 3 !in b.ops
    requires dir in d.dirs && op.lease == Some(x) && op.pc == WriteBack(x, d.store[dir])
    ensures CanReach(h, s, m) && 2 in m.ops && m.ops[2] == op && m.world.env == d.env
    ensures dir in m.world.store && dir in m.world.dirs && m.world.store[dir].labels != d.store[dir].labels
    ensures m.world.store[dir].id == d.store[dir].id
  {
    Joins(h, s, d, b, 2, op);
    var labels := d.store[dir].labels + ["x"];
    SetLabelsSets(h, s, d, Joined(d, b, 2, op), 3, y, dir, labels);
    m := Quiet(Labelled(d, dir, labels), Finished(Joined(d, b, 2, op), 3, SetLabels(y, labels)));
  }

  /** The operation writes back what it read before. */
  lemma StaleWrite(h: Hypotheses, s: State, m: State, op: Op, dir: Id)
    requires CanReach(h, s, m) && 2 in m.ops && m.ops[2] == op && op.life.Lives? && op.pc.WriteBack?
    requires m.world.env.fold(op.pc.id) == dir && m.world.env.fold(op.pc.meta.id) == dir && dir in m.world.dirs
    requires dir in m.world.store && AtHome(m.world, dir)
    requires op.request.Rename? && op.pc.meta.labels != m.world.store[dir].labels
    ensures LosesUpdate(h, s)
  {
    LostBy(h, s, m, Do(2, Advance(true)), dir);
  }

  /** A Rename under one lock reverts labels that are set under the other. */
  lemma TwoLocksLoseUpdate(h: Hypotheses, s: State)
    requires Idle(s) && !OneLockEach(s.world)
    ensures LosesUpdate(h, s)
  {
    var d, b, x, y, dir := TwoLocksArise(h, s);
    var name := NewName(d, "");
    RenameReads(h, s, d, b, 2, x, name);
    var op := Op(Rename(x, name), WriteBack(x, d.store[dir]), true, Some(x), Lives);
    var m := LabelsChange(h, s, d, b, x, y, dir, op);
    StaleWrite(h, s, m, op, dir);
  }

  /** While one operation has read the task, a Rename under the other lock frees its name for a new task. */
  lemma NameTakenAnew(h: Hypotheses, s: State, d: Tasks, b: Others, y: string, dir: Id, f: Id) returns (m: State)
    requires CanReach(h, s, Quiet(d, b)) && b.global.None? && 4 !in b.ops && 5 !in b.ops
    requires dir in d.store && dir in d.dirs && d.env.fold(d.store[dir].id) == dir && d.env.fold(y) == dir
    requires LockKey(d.env, y) !in b.locks && NamesStoredAsGiven(d.env)
    requires ValidName(d.store[dir].name) && OnlyAmong(d.store, d.store[dir].name, {dir})
    requires Fresh(d, f) && d.env.fold(f) != dir
    ensures CanReach(h, s, m) && m.world.env == d.env && dir in m.world.dirs && d.env.fold(f) in m.world.store
    ensures dir in m.world.store
    ensures m.world.store[d.env.fold(f)].name == d.store[dir].name
    ensures forall o :: o in b.ops && o < 4 ==> o in m.ops && m.ops[o] == b.ops[o]
  {
    var was := d.store[dir].name;
    var name := NewName(d, was);
    RenameRenames(h, s, d, b, 4, y, dir, name);
    var d', b' := Renamed(d, dir, name), Finished(b, 4, Rename(y, name));
    RunMakes(h, s, d', b', 5, was, f);
    m := Solo(Made(d', f, was), b', 5, Op(RunOf(was), WantNew(f), true, None, Lives));
  }

  lemma NameComesBack(h: Hypotheses, s: State, d: Tasks, b: Others, x: string, y: string, dir: Id, f: Id)
    requires CanReach(h, s, Quiet(d, b)) && b.locks == map[] && b.global.None?
    requires 3 !in b.ops && 4 !in b.ops && 5 !in b.ops && TwoLocks(d, x, y, dir) && NamesStoredAsGiven(d.env)
    requires ValidName(d.store[dir].name) && OnlyAmong(d.store, d.store[dir].name, {dir})
    requires Fresh(d, f) && d.env.fold(f) != dir
    ensures Duplicates(h, s)
  {
    var op := Op(SetLabels(x, []), WriteBack(x, d.store[dir]), false, Some(x), Lives);
    SetLabelsReads(h, s, d, b, 3, x, []);
    Joins(h, s, d, b, 3, op);
    var m := NameTakenAnew(h, s, d, Joined(d, b, 3, op), y, dir, f);
    assert m.ops[3] == op;
    var t := Apply(m, Do(3, Advance(true)));
    Further(h, s, m, Do(3, Advance(true)), t);
    assert t.world.store[dir].name == t.world.store[d.env.fold(f)].name;
  }

  /** A SetLabels under one lock brings back a name that was changed under the other and taken since. */
  lemma TwoLocksDuplicate(h: Hypotheses, s: State, f: Id, g: Id)
    requires Idle(s) && !OneLockEach(s.world) && NamesStoredAsGiven(s.world.env)
    requires var d := TasksOf(s.world); Fresh(d, f) && Fresh(d, g) && d.env.fold(f) != d.env.fold(g)
    ensures Duplicates(h, s)
  {
    var d, b, x, y, dir := TwoLocksArise(h, s);
    var was := NewName(d, "");
    RenameRenames(h, s, d, b, 2, x, dir, was);
    NameComesBack(h, s, Renamed(d, dir, was), Finished(b, 2, Rename(x, was)), x, y, dir,
                  if d.env.fold(f) == dir then g else f);
  }

  // ---------------------------------------------------------------------------------------
  // A name that opens a task

  /** A valid name opens a task of another name, and another task has the name. */
  predicate Confusable(d: Tasks, name: string, other: Id) {
    && ValidName(name) && d.env.fold(name) in d.store && d.store[d.env.fold(name)].name != name
    && other in d.store && other in d.dirs && d.store[other].name == name
  }

  /** Run finds its name taken by one task, resolves it to the other, and locks that one. */
  lemma RunConfuses(h: Hypotheses, s: State, d: Tasks, b: Others, o: OpId, name: string, other: Id)
    requires CanReach(h, s, Quiet(d, b)) && o !in b.ops && b.global.None? && b.locks == map[]
    requires Confusable(d, name, other)
    ensures At(h, s, d, b, o, Op(Run(name, [], 0, true), Reread(name), true, Some(name), Lives))
  {
    var op := Op(Run(name, [], 0, true), ListTaken, true, None, Lives);
    Begins(h, s, d, b, o, op.request);
    Goes(h, s, d, b, o, op, List(true), ScanTaken(d.dirs));
    Goes(h, s, d, b, o, op.(pc := ScanTaken(d.dirs)), Scan(other, true), TryID);
    Goes(h, s, d, b, o, op.(pc := TryID), Advance(true), WantTask(name));
    Locks(h, s, d, b, o, op.(pc := WantTask(name)), op.(pc := Reread(name), lease := Some(name)));
  }

  /** The re-read finds another name, so Run takes the name for free and creates a second task of it. */
  lemma ReplacingRunDuplicates(h: Hypotheses, s: State, d: Tasks, b: Others, o: OpId, name: string, other: Id, id: Id)
    requires CanReach(h, s, Quiet(d, b)) && o !in b.ops && b.global.None? && b.locks == map[]
    requires Confusable(d, name, other) && Fresh(d, id) && other != d.env.fold(id) && d.env.stored(name) == name
    ensures Duplicates(h, s)
  {
    var op := Op(Run(name, [], 0, true), Reread(name), true, Some(name), Lives);
    RunConfuses(h, s, d, b, o, name, other);
    Goes(h, s, d, b, o, op, Advance(true), ReleaseOld);
    Unlocks(h, s, d, b, o, op.(pc := ReleaseOld), Create);
    var free := op.(pc := Create, lease := None);
    Does(h, s, d, b, o, free, Make(id), Made(d, id, name), free.(pc := WantNew(id)));
    var t := Solo(Made(d, id, name), b, o, free.(pc := WantNew(id)));
    assert t.world.store[d.env.fold(id)].name == t.world.store[other].name;
  }

  /** The name comes to open a task of another name: it does, the task is renamed, or it is created. */
  lemma OpensOther(h: Hypotheses, s: State) returns (d: Tasks, b: Others, name: string)
    requires Idle(s) && !NamesOpenNoTask(s.world) && NamesStoredAsGiven(s.world.env)
    ensures CanReach(h, s, Quiet(d, b)) && b.locks == map[] && b.global.None? && forall o :: o in b.ops ==> o == 1
    ensures d.env == s.world.env && d.ids <= s.world.ids + {d.env.fold(name)} && d.store.Keys <= d.dirs <= d.ids
    ensures ValidName(name) && d.env.fold(name) in d.store && d.store[d.env.fold(name)].name != name
  {
    d, b := TasksOf(s.world), NOBODY;
    IdleIsQuiet(h, s);
    name :| ValidName(name) && var dir := s.world.env.fold(name);
            (Creatable(s.world, dir) || (dir in d.store && (d.store[dir].name != name || AtHome(s.world, dir))));
    var dir := d.env.fold(name);
    var unused := NewName(d, name);
    if Creatable(s.world, dir) {
      var id :| LooksGenerated(id) && d.env.fold(id) == dir;
      RunCreates(h, s, d, b, 1, unused, id);
      d, b := Made(d, id, unused), Finished(b, 1, RunOf(unused));
    } else if d.store[dir].name == name {
      assert d.env.fold(dir) == dir;
      RenameRenames(h, s, d, b, 1, dir, dir, unused);
      d, b := Renamed(d, dir, unused), Finished(b, 1, Rename(dir, unused));
    }
  }

  predicate ThreeFresh(d: Tasks, f: Id, g: Id, k: Id) {
    && Fresh(d, f) && Fresh(d, g) && Fresh(d, k)
    && d.env.fold(f) != d.env.fold(g) && d.env.fold(f) != d.env.fold(k) && d.env.fold(g) != d.env.fold(k)
  }

  /** Another task gets the name, and a replacing Run takes one for the other. */
  lemma NameLikeIDBreaksUniqueness(h: Hypotheses, s: State, f: Id, g: Id, k: Id)
    requires Idle(s) && !NamesOpenNoTask(s.world) && NamesStoredAsGiven(s.world.env)
    requires ThreeFresh(TasksOf(s.world), f, g, k)
    ensures Duplicates(h, s)
  {
    var d, b, name := OpensOther(h, s);
    var dir := d.env.fold(name);
    var p := if d.env.fold(f) != dir then f else g;
    var q := if d.env.fold(f) != dir && d.env.fold(g) != dir then g else k;
    if NameFree(d.store, name) {
      RunCreates(h, s, d, b, 2, name, p);
      ReplacingRunDuplicates(h, s, Made(d, p, name), Finished(b, 2, RunOf(name)), 3, name, d.env.fold(p), q);
    } else {
      var other :| other in d.store && d.store[other].name == name;
      ReplacingRunDuplicates(h, s, d, b, 3, name, other, q);
    }
  }

  // ---------------------------------------------------------------------------------------
  // A scan that cannot read

  /** IsNameTaken skips the tasks that it cannot read. */
  lemma {:induction false} SkipsAll(h: Hypotheses, s: State, d: Tasks, b: Others, o: OpId, op: Op, todo: set<Id>)
    requires !h.scans && At(h, s, d, b, o, op.(pc := ScanTaken(todo)))
    ensures At(h, s, d, b, o, op.(pc := ScanTaken({})))
    decreases |todo|
  {
    if todo != {} {
      var id :| id in todo;
      var p, q := op.(pc := ScanTaken(todo)), op.(pc := ScanTaken(todo - {id}));
      assert b.ops[o := p][o := q] == b.ops[o := q];
      Further(h, s, Solo(d, b, o, p), Do(o, Scan(id, false)), Solo(d, b, o, q));
      SkipsAll(h, s, d, b, o, op, todo - {id});
    }
  }

  lemma UnreadTaskDuplicates(h: Hypotheses, s: State, f: Id, g: Id)
    requires Idle(s) && !h.scans
    requires var d := TasksOf(s.world); Fresh(d, f) && Fresh(d, g) && d.env.fold(f) != d.env.fold(g)
    ensures Duplicates(h, s)
  {
    var d := TasksOf(s.world);
    var name := NewName(d, "");
    IdleIsQuiet(h, s);
    RunCreates(h, s, d, NOBODY, 1, name, f);
    var d', b := Made(d, f, name), Finished(NOBODY, 1, RunOf(name));
    var op := Op(RunOf(name), ListTaken, true, None, Lives);
    Begins(h, s, d', b, 2, RunOf(name));
    Goes(h, s, d', b, 2, op, List(true), ScanTaken(d'.dirs));
    SkipsAll(h, s, d', b, 2, op, d'.dirs);
    Goes(h, s, d', b, 2, op.(pc := ScanTaken({})), ScanEnd, Create);
    Does(h, s, d', b, 2, op.(pc := Create), Make(g), Made(d', g, name), op.(pc := WantNew(g)));
    var t := Solo(Made(d', g, name), b, 2, op.(pc := WantNew(g)));
    assert t.world.store[d.env.fold(f)].name == t.world.store[d.env.fold(g)].name;
  }

  // ---------------------------------------------------------------------------------------
  // A record that is written into what is left of its directory

  /** A SetLabels has read the record of a new task. */
  function Reading(d: Tasks, f: Id, name: string): (State, Op) {
    var d' := Made(d, f, name);
    var op := Op(SetLabels(f, ["x"]), WriteBack(f, d'.store[d.env.fold(f)]), false, Some(f), Lives);
    (Quiet(d', Joined(d', Finished(NOBODY, 1, RunOf(name)), 2, op)), op)
  }

  lemma TaskRead(h: Hypotheses, s: State, f: Id, name: string)
    requires Idle(s) && Fresh(TasksOf(s.world), f) && ValidName(name) && NameFree(s.world.store, name)
    ensures CanReach(h, s, Reading(TasksOf(s.world), f, name).0)
  {
    var d := TasksOf(s.world);
    IdleIsQuiet(h, s);
    RunCreates(h, s, d, NOBODY, 1, name, f);
    SetLabelsReads(h, s, Made(d, f, name), Finished(NOBODY, 1, RunOf(name)), 2, f, ["x"]);
    Joins(h, s, Made(d, f, name), Finished(NOBODY, 1, RunOf(name)), 2, Reading(d, f, name).1);
  }

  /** The supervisor removes the record, and the directory is still there. */
  function Emptied(d: Tasks, dir: Id): Tasks {
    d.(store := d.store - {dir})
  }

  /** SetLabels has read the record of a removed task, and a new task is created with its name. */
  lemma NameReused(h: Hypotheses, s: State, f: Id, g: Id, name: string) returns (m: State)
    requires Idle(s) && Fresh(TasksOf(s.world), f) && ValidName(name) && NameFree(s.world.store, name)
    requires Fresh(TasksOf(s.world), g) && s.world.env.fold(f) != s.world.env.fold(g)
    ensures CanReach(h, s, m) && m.world.env == s.world.env && s.world.env.fold(f) in m.world.dirs
    ensures 2 in m.ops && m.ops[2] == Reading(TasksOf(s.world), f, name).1
    ensures var other := s.world.env.fold(g);
            other in m.world.store && m.world.store[other].name == s.world.env.stored(name)
  {
    var d := TasksOf(s.world);
    var (reading, op) := Reading(d, f, name);
    TaskRead(h, s, f, name);
    var d' := Emptied(Made(d, f, name), d.env.fold(f));
    var b := Joined(Made(d, f, name), Finished(NOBODY, 1, RunOf(name)), 2, op);
    Further(h, s, reading, SelfRemove(d.env.fold(f)), Quiet(d', b));
    RunMakes(h, s, d', b, 3, name, g);
    m := Solo(Made(d', g, name), b, 3, Op(RunOf(name), WantNew(g), true, None, Lives));
  }

  /** SetLabels brings the removed task back, whose name a new task has by then. */
  lemma RemainsDuplicate(h: Hypotheses, s: State, f: Id, g: Id)
    requires Idle(s) && !h.removals
    requires var d := TasksOf(s.world); Fresh(d, f) && Fresh(d, g) && d.env.fold(f) != d.env.fold(g)
    ensures Duplicates(h, s)
  {
    var name := NewName(TasksOf(s.world), "");
    var m := NameReused(h, s, f, g, name);
    Further(h, s, m, Do(2, Advance(true)), Apply(m, Do(2, Advance(true))));
    var t := Apply(m, Do(2, Advance(true))).world;
    assert t.store[t.env.fold(f)].name == t.store[t.env.fold(g)].name;
  }

  lemma LostAfter(h: Hypotheses, s: State, m: State, first: Step, second: Step, dir: Id)
    requires CanReach(h, s, m) && Allowed(h, m, first) && Allowed(h, Apply(m, first), second)
    requires !Commits(m, first, dir) && !Commits(Apply(m, first), second, dir)
    requires dir in m.world.store && dir in Apply(Apply(m, first), second).world.store
    requires Apply(Apply(m, first), second).world.store[dir] != m.world.store[dir]
    ensures LosesUpdate(h, s)
  {
    var n: nat :| Continues(h, s, m, n);
    var t, u, steps := Apply(m, first), Apply(Apply(m, first), second), [first, second];
    assert steps[1..] == [second] && [second][1..] == [];
    assert Leads(h, u, [], u);
    assert Leads(h, t, [second], u) && Replay(t, [second], dir, m.world.store[dir]) == m.world.store[dir];
    assert Leads(h, m, steps, u) && u.world.store[dir] != Replay(m, steps, dir, m.world.store[dir]);
  }

  /** SetLabels brings the removed task back. */
  lemma RemainsLoseUpdate(h: Hypotheses, s: State, f: Id)
    requires Idle(s) && !h.removals && Fresh(TasksOf(s.world), f)
    ensures LosesUpdate(h, s)
  {
    var d := TasksOf(s.world);
    var name := NewName(d, "");
    TaskRead(h, s, f, name);
    LostAfter(h, s, Reading(d, f, name).0, SelfRemove(d.env.fold(f)), Do(2, Advance(true)), d.env.fold(f));
  }
}
