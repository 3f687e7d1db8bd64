/** Name uniqueness, no lost metadata update and freedom from deadlock, over the runs of TaskStore. */
module TaskStoreSafety {
  import opened Wrappers
  import opened TaskStore

  // ---------------------------------------------------------------------------------------
  // The invariant

  ghost predicate Active(s: State, o: OpId) {
    o in s.ops && s.ops[o].life.Lives?
  }

  /** Every task named `n` is one of `ids`. */
  ghost predicate OnlyAmong(store: map<Id, Meta>, n: string, ids: set<Id>) {
    forall id :: id in store && store[id].name == n ==> id in ids
  }

  ghost predicate NameFree(store: map<Id, Meta>, n: string) {
    OnlyAmong(store, n, {})
  }

  /** Between the store-wide lock and the hand-over to the created task's lock. */
  predicate DecidesName(op: Op) {
    match op.request
    case Run(_, _, _, _) => !(op.pc.WantGlobal? || op.pc.Launch? || op.pc.Abandon? || op.pc.Finish? || op.pc.Done?)
    case Rename(_, _) => !(op.pc.WantGlobal? || op.pc.Finish? || op.pc.Done?)
    case _ => false
  }

  /** The program counters of one kind of request only. */
  predicate Fits(op: Op) {
    match op.pc
    case WantGlobal => op.request.Run? || op.request.Rename?
    case ListTaken => op.request.Run? || op.request.Rename?
    case ScanTaken(_) => op.request.Run? || op.request.Rename?
    case ReleaseOld => op.request.Run?
    case Create => op.request.Run?
    case WantNew(_) => op.request.Run?
    case Withdraw(_) => op.request.Run?
    case ReleaseGlobal(_) => op.request.Run?
    case Launch(_) => op.request.Run?
    case Abandon(_) => op.request.Run?
    case ReadForWrite(_) => op.request.Rename? || op.request.SetLabels?
    case WriteBack(_, _) => op.request.Rename? || op.request.SetLabels?
    case _ => true
  }

  /** Which task lock each program counter comes with. */
  predicate LeaseFits(op: Op) {
    match op.pc
    case WantGlobal => op.lease.None? && !op.global
    case WantTask(_) => op.lease.None?
    case WantNew(_) => op.lease.None?
    case TryID => op.lease.None?
    case ListResolve => op.lease.None?
    case ScanResolve(_, _) => op.lease.None?
    case Create => op.lease.None?
    case ListTaken => op.request.Rename? <==> op.lease.Some?
    case ScanTaken(_) => op.request.Rename? <==> op.lease.Some?
    case Reread(id) => op.lease == Some(id)
    case Remove(id) => op.lease == Some(id)
    case ReadForWrite(id) => op.lease == Some(id)
    case WriteBack(id, _) => op.lease == Some(id)
    case ReleaseGlobal(id) => op.lease == Some(id)
    case Done => op.lease.None? && !op.global
    case _ => true
  }

  /** The program counter fits the request, and the locks fit the program counter. */
  ghost predicate ShapeInv(w: World, o: OpId, op: Op) {
    && Fits(op) && LeaseFits(op)
    && (DecidesName(op) ==> op.global)
    && (op.global ==> w.global == Some(o))
    && (op.lease.Some? ==> TaskHolder(w, op.lease.value) == Some(o))
  }

  /** A record about to be written back is still the stored one, and goes where it came from or nowhere. */
  ghost predicate CopyInv(w: World, op: Op) {
    op.pc.WriteBack? ==>
      var dir := w.env.fold(op.pc.id);
      && dir in w.ids && (dir in w.store ==> op.pc.meta == w.store[dir])
      && (w.env.fold(op.pc.meta.id) == dir || !Reaches(w, op.pc.meta))
  }

  /** What an operation knows about the names in the store. */
  ghost predicate NameInv(w: World, op: Op) {
    var n := WantedName(op.request);
    match op.pc
    case ScanTaken(todo) => OnlyAmong(w.store, n, todo)
    case ScanResolve(todo, matches) => op.request.Run? ==> OnlyAmong(w.store, n, todo + set id | id in matches)
    case WantTask(id) => op.request.Run? ==> OnlyAmong(w.store, n, {w.env.fold(id)})
    case Reread(id) => op.request.Run? ==> OnlyAmong(w.store, n, {w.env.fold(id)})
    case Remove(id) => op.request.Run? ==> OnlyAmong(w.store, n, {w.env.fold(id)})
    case ReleaseOld => NameFree(w.store, n)
    case Create => NameFree(w.store, n)
    case ReadForWrite(_) => op.request.Rename? ==> NameFree(w.store, n)
    case WriteBack(_, _) => op.request.Rename? ==> NameFree(w.store, n)
    case _ => true
  }

  /** What a scan for a name has found are entries as they are listed. */
  ghost predicate ListedInv(w: World, op: Op) {
    && (op.pc.ScanResolve? ==> forall id :: id in op.pc.todo || id in op.pc.matches ==> w.env.fold(id) == id)
    && (op.pc.ScanTaken? ==> forall id :: id in op.pc.todo ==> w.env.fold(id) == id)
  }

  /** The directories are listed ones, and records are in directories. */
  ghost predicate PlaceInv(w: World) {
    && Stable(w.env) && w.store.Keys <= w.dirs <= w.ids
    && forall dir :: dir in w.dirs ==> w.env.fold(dir) == dir
  }

  /** Operations keep their locks in order, in every run. */
  ghost predicate LocksOk(s: State) {
    PlaceInv(s.world) && forall o :: Active(s, o) ==> ShapeInv(s.world, o, s.ops[o])
  }

  /** Records are written back where they came from, unless the store or its environment has a trap. */
  ghost predicate RecordsOk(s: State) {
    && LocksOk(s) && NoStrayRecord(s.world) && OneLockEach(s.world)
    && forall o :: Active(s, o) ==> CopyInv(s.world, s.ops[o])
  }

  /** Names stay unique, unless the store or its environment has a trap for names. */
  ghost predicate NamesOk(s: State) {
    && RecordsOk(s) && UniqueNames(s.world.store) && NamesOpenNoTask(s.world) && NamesStoredAsGiven(s.world.env)
    && (forall o :: o in s.ops ==> ValidRequest(s.ops[o].request))
    && forall o :: Active(s, o) ==> NameInv(s.world, s.ops[o]) && ListedInv(s.world, s.ops[o])
  }

  // ---------------------------------------------------------------------------------------
  // Locks: one step of an operation, seen by itself and by another one

  lemma OwnShapeUnlock(w: World, o: OpId, op: Op, ok: bool)
    requires ShapeInv(w, o, op) && Ready(w, op, Advance(ok)) && Releases(op)
    ensures var (w', op') := Advanced(w, op, ok); ShapeInv(w', o, op')
  {
  }

  lemma OwnShapeAdvance(w: World, o: OpId, op: Op, ok: bool)
    requires ShapeInv(w, o, op) && Ready(w, op, Advance(ok))
    ensures var (w', op') := Advanced(w, op, ok); ShapeInv(w', o, op')
  {
    if Releases(op) { OwnShapeUnlock(w, o, op, ok); }
  }

  lemma OwnShape(w: World, o: OpId, op: Op, a: Action)
    requires ShapeInv(w, o, op) && Ready(w, op, a)
    ensures var (w', op') := Effect(w, o, op, a); ShapeInv(w', o, op')
  {
    if a.Advance? { OwnShapeAdvance(w, o, op, a.ok); }
  }

  lemma OwnRequest(w: World, o: OpId, op: Op, a: Action)
    requires Ready(w, op, a)
    ensures var (w', op') := Effect(w, o, op, a);
            op'.request == op.request && op'.life == op.life && w'.env == w.env && w.ids <= w'.ids
  {
  }

  /** Nobody takes or drops a lock that a live operation holds. */
  lemma LocksFramed(s: State, o: OpId, a: Action, p: OpId)
    requires LocksOk(s) && Enabled(s, Do(o, a)) && Active(s, p) && p != o
    ensures ShapeInv(Effect(s.world, o, s.ops[o], a).0, p, s.ops[p])
  {
    assert ShapeInv(s.world, o, s.ops[o]) && ShapeInv(s.world, p, s.ops[p]);
  }

  lemma PlacesKept(s: State, o: OpId, a: Action)
    requires LocksOk(s) && Enabled(s, Do(o, a))
    ensures PlaceInv(Effect(s.world, o, s.ops[o], a).0)
  {
    assert ShapeInv(s.world, o, s.ops[o]);
    if a.Make? { assert s.world.env.fold(s.world.env.fold(a.id)) == s.world.env.fold(a.id); }
  }

  lemma LocksOkKept(s: State, step: Step)
    requires LocksOk(s) && Enabled(s, step)
    ensures LocksOk(Apply(s, step))
  {
    var s' := Apply(s, step);
    match step
    case Do(o, a) =>
      PlacesKept(s, o, a);
      OwnRequest(s.world, o, s.ops[o], a);
      forall p | Active(s', p) ensures ShapeInv(s'.world, p, s'.ops[p]) {
        if p == o { OwnShape(s.world, o, s.ops[o], a); } else { LocksFramed(s, o, a, p); }
      }
    case _ =>
      forall p | Active(s', p) ensures ShapeInv(s'.world, p, s'.ops[p]) {
        if Active(s, p) { assert ShapeInv(s.world, p, s.ops[p]); }
      }
  }

  // ---------------------------------------------------------------------------------------
  // Records

  /** What can no longer come does not come. */
  lemma ReachesLess(w: World, o: OpId, op: Op, a: Action, meta: Meta)
    requires Ready(w, op, a) && !Reaches(w, meta)
    ensures !Reaches(Effect(w, o, op, a).0, meta)
  {
  }

  lemma CreatableLess(w: World, o: OpId, op: Op, a: Action, dir: Id)
    requires Ready(w, op, a) && Creatable(Effect(w, o, op, a).0, dir)
    ensures Creatable(w, dir)
  {
    OwnRequest(w, o, op, a);
  }

  /** The record of task `dir` after a step: added at home, unchanged, or rewritten at home. */
  ghost predicate Moved(w: World, op: Op, a: Action, store': map<Id, Meta>, dir: Id)
    requires dir in store'
  {
    || (dir !in w.store && a.Make? && Creatable(w, dir) && dir == w.env.fold(store'[dir].id)
        && store'[dir].name == w.env.stored(WantedName(op.request)))
    || (dir in w.store && store'[dir] == w.store[dir])
    || (dir in w.store && AtHome(w, dir) && a == Advance(true) && op.pc.WriteBack?
        && w.env.fold(op.pc.id) == dir && store'[dir] == Edited(w.env, op.request, w.store[dir]))
  }

  /** A step adds one task at home, rewrites one record at home, removes one task, or leaves the tasks alone. */
  lemma RecordMoves(w: World, o: OpId, op: Op, a: Action)
    requires PlaceInv(w) && NoStrayRecord(w) && CopyInv(w, op) && Ready(w, op, a)
    requires FindsRecord(w, op, a)
    ensures var w' := Effect(w, o, op, a).0; forall dir :: dir in w'.store ==> Moved(w, op, a, w'.store, dir)
  {
  }

  lemma StraysKept(w: World, o: OpId, op: Op, a: Action)
    requires PlaceInv(w) && NoStrayRecord(w) && CopyInv(w, op) && Ready(w, op, a)
    requires FindsRecord(w, op, a)
    ensures NoStrayRecord(Effect(w, o, op, a).0)
  {
    var w' := Effect(w, o, op, a).0;
    RecordMoves(w, o, op, a);
    OwnRequest(w, o, op, a);
    forall dir | dir in w'.store && !AtHome(w', dir) ensures !Reaches(w', w'.store[dir]) {
      if dir in w.store { ReachesLess(w, o, op, a, w.store[dir]); }
    }
  }

  lemma OneLockKept(w: World, o: OpId, op: Op, a: Action)
    requires PlaceInv(w) && NoStrayRecord(w) && CopyInv(w, op) && OneLockEach(w) && Ready(w, op, a)
    requires FindsRecord(w, op, a)
    ensures OneLockEach(Effect(w, o, op, a).0)
  {
    var w' := Effect(w, o, op, a).0;
    RecordMoves(w, o, op, a);
    OwnRequest(w, o, op, a);
    forall dir | (dir in w'.store && AtHome(w', dir)) || Creatable(w', dir) ensures SharesLock(w'.env, dir) {
      if Creatable(w', dir) { CreatableLess(w, o, op, a, dir); }
      assert SharesLock(w.env, dir);
    }
  }

  lemma OwnCopy(w: World, o: OpId, op: Op, a: Action)
    requires PlaceInv(w) && NoStrayRecord(w) && CopyInv(w, op) && Ready(w, op, a)
    ensures var (w', op') := Effect(w, o, op, a); CopyInv(w', op')
  {
    if op.pc.ReadForWrite? && a.Advance? {
      var dir := w.env.fold(op.pc.id);
      assert dir in w.store && !AtHome(w, dir) ==> !Reaches(w, w.store[dir]);
    }
  }

  /** While a live operation holds a task lock, no other one rewrites the records it covers. */
  lemma RecordsFramed(s: State, o: OpId, a: Action, p: OpId, ref: string)
    requires RecordsOk(s) && Enabled(s, Do(o, a)) && WholeRemovals(s, Do(o, a))
    requires Active(s, p) && p != o && s.ops[p].lease.Some?
    requires s.world.env.fold(ref) in s.world.ids
    requires LockKey(s.world.env, ref) == LockKey(s.world.env, s.ops[p].lease.value)
    ensures var w, w' := s.world, Effect(s.world, o, s.ops[o], a).0; var dir := w.env.fold(ref);
            dir in w'.store ==> dir in w.store && w'.store[dir] == w.store[dir]
  {
    var w, op := s.world, s.ops[o];
    assert ShapeInv(w, o, op) && ShapeInv(w, p, s.ops[p]) && CopyInv(w, op);
    RecordMoves(w, o, op, a);
    if op.pc.WriteBack? && w.env.fold(op.pc.id) == w.env.fold(ref) && w.env.fold(ref) in w.store {
      if AtHome(w, w.env.fold(ref)) { assert SharesLock(w.env, w.env.fold(ref)); }
    }
  }

  lemma OtherCopy(s: State, o: OpId, a: Action, p: OpId)
    requires RecordsOk(s) && Enabled(s, Do(o, a)) && WholeRemovals(s, Do(o, a)) && Active(s, p) && p != o
    ensures CopyInv(Effect(s.world, o, s.ops[o], a).0, s.ops[p])
  {
    var w, op := s.world, s.ops[p];
    assert CopyInv(w, op) && ShapeInv(w, p, op);
    OwnRequest(w, o, s.ops[o], a);
    if op.pc.WriteBack? {
      RecordsFramed(s, o, a, p, op.pc.id);
      if !Reaches(w, op.pc.meta) { ReachesLess(w, o, s.ops[o], a, op.pc.meta); }
    }
  }

  lemma RecordsOkDo(s: State, o: OpId, a: Action)
    requires RecordsOk(s) && Enabled(s, Do(o, a)) && WholeRemovals(s, Do(o, a))
    ensures RecordsOk(Apply(s, Do(o, a)))
  {
    var s', w, op := Apply(s, Do(o, a)), s.world, s.ops[o];
    assert CopyInv(w, op);
    LocksOkKept(s, Do(o, a));
    StraysKept(w, o, op, a);
    OneLockKept(w, o, op, a);
    OwnRequest(w, o, op, a);
    forall p | Active(s', p) ensures CopyInv(s'.world, s'.ops[p]) {
      if p == o { OwnCopy(w, o, op, a); } else { OtherCopy(s, o, a, p); }
    }
  }

  lemma RecordsOkRest(s: State, step: Step)
    requires RecordsOk(s) && Enabled(s, step) && !step.Do?
    ensures RecordsOk(Apply(s, step))
  {
    var s' := Apply(s, step);
    LocksOkKept(s, step);
    forall dir | dir in s'.world.store && !AtHome(s'.world, dir) ensures !Reaches(s'.world, s'.world.store[dir]) {
      assert !Reaches(s.world, s.world.store[dir]);
    }
    forall dir | (dir in s'.world.store && AtHome(s'.world, dir)) || Creatable(s'.world, dir)
      ensures SharesLock(s'.world.env, dir)
    {
      assert Creatable(s'.world, dir) ==> Creatable(s.world, dir);
    }
    forall p | Active(s', p) ensures CopyInv(s'.world, s'.ops[p]) {
      if Active(s, p) { assert CopyInv(s.world, s.ops[p]); }
    }
  }

  lemma RecordsOkKept(s: State, step: Step)
    requires RecordsOk(s) && Enabled(s, step) && WholeRemovals(s, step)
    ensures RecordsOk(Apply(s, step))
  {
    if step.Do? { RecordsOkDo(s, step.o, step.action); } else { RecordsOkRest(s, step); }
  }

  // ---------------------------------------------------------------------------------------
  // Names

  /** A valid name opens no task, or the only one that is called like it. */
  lemma NamesAreNotIDs(s: State, o: OpId)
    requires NamesOk(s) && o in s.ops && s.ops[o].request.Run?
    ensures var n := s.ops[o].request.name; var dir := s.world.env.fold(n);
            dir in s.world.store ==> s.world.store[dir].name == n && OnlyAmong(s.world.store, n, {dir})
  {
    assert ValidRequest(s.ops[o].request) && ValidName(s.ops[o].request.name);
  }

  lemma OwnListed(w: World, o: OpId, op: Op, a: Action)
    requires PlaceInv(w) && ListedInv(w, op) && Ready(w, op, a)
    ensures var (w', op') := Effect(w, o, op, a); ListedInv(w', op')
  {
  }

  lemma OwnNamesRemove(w: World, o: OpId, op: Op, ok: bool)
    requires ShapeInv(w, o, op) && NameInv(w, op) && op.pc.Remove?
    ensures var (w', op') := Advanced(w, op, ok); NameInv(w', op')
  {
  }

  lemma OwnNamesReread(w: World, o: OpId, op: Op, ok: bool)
    requires ShapeInv(w, o, op) && NameInv(w, op) && op.pc.Reread?
    ensures var (w', op') := Advanced(w, op, ok); NameInv(w', op')
  {
  }

  lemma OwnNamesAdvance(w: World, o: OpId, op: Op, ok: bool)
    requires ShapeInv(w, o, op) && NameInv(w, op) && Ready(w, op, Advance(ok))
    requires op.pc.TryID? && op.request.Run? && w.env.fold(op.request.name) in w.store ==>
               OnlyAmong(w.store, op.request.name, {w.env.fold(op.request.name)})
    ensures var (w', op') := Advanced(w, op, ok); NameInv(w', op')
  {
    if op.pc.Remove? { OwnNamesRemove(w, o, op, ok); }
    if op.pc.Reread? { OwnNamesReread(w, o, op, ok); }
  }

  lemma OwnNamesScan(w: World, o: OpId, op: Op, a: Action)
    requires NameInv(w, op) && ListedInv(w, op) && Ready(w, op, a)
    requires (a.Scan? && (a.ok || a.id !in w.store)) || a.ScanEnd?
    ensures var (w', op') := Effect(w, o, op, a); NameInv(w', op')
  {
    if op.pc.ScanResolve? && a.ScanEnd? && |op.pc.matches| == 1 {
      assert (set id | id in op.pc.matches) == {op.pc.matches[0]};
      assert op.pc.todo + {op.pc.matches[0]} == {w.env.fold(op.pc.matches[0])};
    }
  }

  lemma OwnNames(s: State, o: OpId, a: Action)
    requires NamesOk(s) && Enabled(s, Do(o, a)) && ReadsSucceed(s, Do(o, a))
    ensures var (w', op') := Effect(s.world, o, s.ops[o], a); NameInv(w', op')
  {
    var w, op := s.world, s.ops[o];
    assert ShapeInv(w, o, op) && NameInv(w, op) && ListedInv(w, op);
    if a.Advance? {
      if op.request.Run? { NamesAreNotIDs(s, o); }
      OwnNamesAdvance(w, o, op, a.ok);
    } else if a.Scan? || a.ScanEnd? {
      OwnNamesScan(w, o, op, a);
    }
  }

  /** While a live operation holds the store-wide lock, no other one brings a name into the store. */
  lemma NamesFramed(s: State, o: OpId, a: Action, p: OpId)
    requires RecordsOk(s) && Enabled(s, Do(o, a)) && WholeRemovals(s, Do(o, a))
    requires Active(s, p) && p != o && s.ops[p].global
    ensures var w' := Effect(s.world, o, s.ops[o], a).0;
            forall dir :: dir in w'.store ==> dir in s.world.store && w'.store[dir].name == s.world.store[dir].name
  {
    var w, op := s.world, s.ops[o];
    assert ShapeInv(w, o, op) && ShapeInv(w, p, s.ops[p]) && CopyInv(w, op);
    RecordMoves(w, o, op, a);
  }

  lemma OtherNames(s: State, o: OpId, a: Action, p: OpId)
    requires NamesOk(s) && Enabled(s, Do(o, a)) && WholeRemovals(s, Do(o, a)) && Active(s, p) && p != o
    ensures NameInv(Effect(s.world, o, s.ops[o], a).0, s.ops[p])
  {
    assert ShapeInv(s.world, p, s.ops[p]) && NameInv(s.world, s.ops[p]);
    OwnRequest(s.world, o, s.ops[o], a);
    if s.ops[p].global { NamesFramed(s, o, a, p); }
  }

  /** The directory whose name a step may change. */
  function NamePlace(env: Env, op: Op, a: Action): Id {
    if a.Make? then env.fold(a.id) else if op.pc.WriteBack? then env.fold(op.pc.id) else ""
  }

  lemma MovedName(w: World, op: Op, a: Action, store': map<Id, Meta>, dir: Id)
    requires dir in store' && Moved(w, op, a, store', dir) && (a.Make? ==> op.pc.Create?)
    requires Fits(op) && NameInv(w, op) && NamesStoredAsGiven(w.env) && ValidRequest(op.request)
    requires a.Make? && dir !in w.store ==> dir == w.env.fold(a.id)
    ensures (dir in w.store && store'[dir].name == w.store[dir].name)
         || (dir == NamePlace(w.env, op, a) && store'[dir].name == WantedName(op.request)
             && NameFree(w.store, WantedName(op.request)))
  {
  }

  /** A name that comes into the store is one that nobody has. */
  lemma NewNameIsFree(s: State, o: OpId, a: Action, dir: Id)
    requires NamesOk(s) && Enabled(s, Do(o, a)) && WholeRemovals(s, Do(o, a))
    requires dir in Effect(s.world, o, s.ops[o], a).0.store
    ensures var n, w, w' := WantedName(s.ops[o].request), s.world, Effect(s.world, o, s.ops[o], a).0;
            || (dir in w.store && w'.store[dir].name == w.store[dir].name)
            || (dir == NamePlace(w.env, s.ops[o], a) && w'.store[dir].name == n && NameFree(w.store, n))
  {
    var w, op := s.world, s.ops[o];
    assert ShapeInv(w, o, op) && NameInv(w, op) && CopyInv(w, op) && ValidRequest(op.request);
    RecordMoves(w, o, op, a);
    if dir !in w.store || dir == NamePlace(w.env, op, a) {
      MovedName(w, op, a, Effect(w, o, op, a).0.store, dir);
    }
  }

  lemma UniqueKept(s: State, o: OpId, a: Action)
    requires NamesOk(s) && Enabled(s, Do(o, a)) && WholeRemovals(s, Do(o, a))
    ensures UniqueNames(Effect(s.world, o, s.ops[o], a).0.store)
  {
    var store' := Effect(s.world, o, s.ops[o], a).0.store;
    forall x, y | x in store' && y in store' && store'[x].name == store'[y].name ensures x == y {
      NewNameIsFree(s, o, a, x);
      NewNameIsFree(s, o, a, y);
    }
  }

  lemma OpeningsKept(s: State, o: OpId, a: Action)
    requires NamesOk(s) && Enabled(s, Do(o, a)) && WholeRemovals(s, Do(o, a))
    ensures NamesOpenNoTask(Effect(s.world, o, s.ops[o], a).0)
  {
    var w, op := s.world, s.ops[o];
    var w' := Effect(w, o, op, a).0;
    assert CopyInv(w, op);
    RecordMoves(w, o, op, a);
    OwnRequest(w, o, op, a);
    forall n | ValidName(n)
      ensures var dir := w'.env.fold(n);
              !Creatable(w', dir) && (dir in w'.store ==> w'.store[dir].name == n && !AtHome(w', dir))
    {
      if Creatable(w', w.env.fold(n)) { CreatableLess(w, o, op, a, w.env.fold(n)); }
    }
  }

  lemma NamesOkDo(s: State, o: OpId, a: Action)
    requires NamesOk(s) && Enabled(s, Do(o, a)) && ReadsSucceed(s, Do(o, a)) && WholeRemovals(s, Do(o, a))
    ensures NamesOk(Apply(s, Do(o, a)))
  {
    var s' := Apply(s, Do(o, a));
    RecordsOkDo(s, o, a);
    UniqueKept(s, o, a);
    OpeningsKept(s, o, a);
    OwnRequest(s.world, o, s.ops[o], a);
    forall p | Active(s', p) ensures NameInv(s'.world, s'.ops[p]) && ListedInv(s'.world, s'.ops[p]) {
      if p == o {
        OwnNames(s, o, a);
        OwnListed(s.world, o, s.ops[o], a);
      } else {
        OtherNames(s, o, a, p);
      }
    }
  }

  lemma NamesOkRest(s: State, step: Step)
    requires NamesOk(s) && Enabled(s, step) && !step.Do?
    ensures NamesOk(Apply(s, step))
  {
    var s' := Apply(s, step);
    RecordsOkRest(s, step);
    forall n | ValidName(n)
      ensures var dir := s'.world.env.fold(n);
              !Creatable(s'.world, dir)
              && (dir in s'.world.store ==> s'.world.store[dir].name == n && !AtHome(s'.world, dir))
    {
      assert Creatable(s'.world, s.world.env.fold(n)) ==> Creatable(s.world, s.world.env.fold(n));
    }
    forall p | Active(s', p) ensures NameInv(s'.world, s'.ops[p]) && ListedInv(s'.world, s'.ops[p]) {
      if Active(s, p) { assert NameInv(s.world, s.ops[p]) && ListedInv(s.world, s.ops[p]); }
    }
  }

  // ---------------------------------------------------------------------------------------
  // Main results: names

  const FOR_NAMES := Hypotheses(true, true, false, false)

  lemma NamesOkNext(s: State, t: State)
    requires NamesOk(s) && Next(FOR_NAMES, s, t)
    ensures NamesOk(t)
  {
    var step :| Allowed(FOR_NAMES, s, step) && Apply(s, step) == t;
    if step.Do? { NamesOkDo(s, step.o, step.action); } else { NamesOkRest(s, step); }
  }

  lemma {:induction false} NamesOkThroughout(s: State, t: State, n: nat)
    requires NamesOk(s) && Continues(FOR_NAMES, s, t, n)
    ensures NamesOk(t)
    decreases n
  {
    if n > 0 {
      var m :| Continues(FOR_NAMES, s, m, n - 1) && Next(FOR_NAMES, m, t);
      NamesOkThroughout(s, m, n - 1);
      NamesOkNext(m, t);
    }
  }

  /** The store and its environment hold no trap for records, and none for names. */
  ghost predicate NoTrapForRecords(w: World) {
    NoStrayRecord(w) && OneLockEach(w)
  }

  ghost predicate NoTrapForNames(w: World) {
    NoTrapForRecords(w) && NamesOpenNoTask(w) && NamesStoredAsGiven(w.env)
  }

  /**
   From an idle store without traps, in every run whose scans can read the tasks that are there and which
   writes nothing into what is left of a removed one, no two tasks in the store have the same name.
   */
  lemma NamesStayUnique(s: State, t: State, n: nat)
    requires Idle(s) && NoTrapForNames(s.world) && Continues(FOR_NAMES, s, t, n)
    ensures UniqueNames(t.world.store)
  {
    assert NamesOk(s);
    NamesOkThroughout(s, t, n);
  }

  // ---------------------------------------------------------------------------------------
  // Main results: no lost metadata update

  const FOR_RECORDS := Hypotheses(false, true, false, false)

  lemma NextRecordsOk(s: State, t: State)
    requires RecordsOk(s) && Next(FOR_RECORDS, s, t)
    ensures RecordsOk(t)
  {
    var step :| Allowed(FOR_RECORDS, s, step) && Apply(s, step) == t;
    RecordsOkKept(s, step);
  }

  lemma {:induction false} RecordsOkThroughout(s: State, t: State, n: nat)
    requires RecordsOk(s) && Continues(FOR_RECORDS, s, t, n)
    ensures RecordsOk(t)
    decreases n
  {
    if n > 0 {
      var m :| Continues(FOR_RECORDS, s, m, n - 1) && Next(FOR_RECORDS, m, t);
      RecordsOkThroughout(s, m, n - 1);
      NextRecordsOk(m, t);
    }
  }

  /** `steps`, all allowed under `h`, lead from `s` to `t`. */
  ghost predicate Leads(h: Hypotheses, s: State, steps: seq<Step>, t: State)
    decreases |steps|
  {
    if steps == [] then s == t
    else Allowed(h, s, steps[0]) && Leads(h, Apply(s, steps[0]), steps[1..], t)
  }

  /** The request of an operation that resolved to task `dir` and whose replacement of the record is done now. */
  predicate Commits(s: State, step: Step, dir: Id) {
    && step.Do? && step.o in s.ops && step.action == Advance(true)
    && s.ops[step.o].pc.WriteBack? && s.world.env.fold(s.ops[step.o].pc.id) == dir
    && dir in s.world.store && AtHome(s.world, dir)
  }

  /** The record of task `dir` if every commit edited its own field of the record it finds. */
  ghost function Replay(s: State, steps: seq<Step>, dir: Id, meta: Meta): Meta
    decreases |steps|
  {
    if steps == [] || !Enabled(s, steps[0]) then meta
    else
      Replay(Apply(s, steps[0]), steps[1..], dir,
             if Commits(s, steps[0], dir) then Edited(s.world.env, s.ops[steps[0].o].request, meta) else meta)
  }

  lemma StepReplays(s: State, step: Step, dir: Id)
    requires RecordsOk(s) && Enabled(s, step) && WholeRemovals(s, step)
    requires dir in s.world.store && dir in Apply(s, step).world.store
    ensures Apply(s, step).world.store[dir]
            == if Commits(s, step, dir) then Edited(s.world.env, s.ops[step.o].request, s.world.store[dir])
               else s.world.store[dir]
  {
    if step.Do? {
      assert CopyInv(s.world, s.ops[step.o]);
      RecordMoves(s.world, step.o, s.ops[step.o], step.action);
    }
  }

  lemma RemovedForGood(s: State, step: Step, dir: Id)
    requires RecordsOk(s) && Enabled(s, step) && WholeRemovals(s, step) && dir in s.world.ids && dir !in s.world.store
    ensures var w' := Apply(s, step).world; dir in w'.ids && dir !in w'.store
  {
    if step.Do? {
      assert CopyInv(s.world, s.ops[step.o]);
      RecordMoves(s.world, step.o, s.ops[step.o], step.action);
    }
  }

  lemma {:induction false} GoneForGood(s: State, steps: seq<Step>, t: State, dir: Id)
    requires RecordsOk(s) && Leads(FOR_RECORDS, s, steps, t) && dir in s.world.ids && dir !in s.world.store
    ensures dir !in t.world.store
    decreases |steps|
  {
    if steps != [] {
      RemovedForGood(s, steps[0], dir);
      RecordsOkKept(s, steps[0]);
      GoneForGood(Apply(s, steps[0]), steps[1..], t, dir);
    }
  }

  lemma {:induction false} EditsReplay(s: State, steps: seq<Step>, t: State, dir: Id)
    requires RecordsOk(s) && Leads(FOR_RECORDS, s, steps, t) && dir in s.world.store && dir in t.world.store
    ensures t.world.store[dir] == Replay(s, steps, dir, s.world.store[dir])
    decreases |steps|
  {
    if steps != [] {
      var s' := Apply(s, steps[0]);
      RecordsOkKept(s, steps[0]);
      if dir !in s'.world.store {
        GoneForGood(s', steps[1..], t, dir);
      }
      StepReplays(s, steps[0], dir);
      EditsReplay(s', steps[1..], t, dir);
    }
  }

  /**
   Over any stretch of any run from an idle store without traps for records, whatever reads and unlocks
   fail, if nothing is written into what is left of a removed task: a task's record ends up as its old
   record with the committed edits applied in commit order, each to its own field.  Although Rename and
   SetLabels write back whole records read earlier, no commit reverts another.
   */
  lemma NoLostUpdate(s: State, m: State, n: nat, steps: seq<Step>, t: State, dir: Id)
    requires Idle(s) && NoTrapForRecords(s.world) && Continues(FOR_RECORDS, s, m, n)
    requires Leads(FOR_RECORDS, m, steps, t) && dir in m.world.store && dir in t.world.store
    ensures t.world.store[dir] == Replay(m, steps, dir, m.world.store[dir])
  {
    assert RecordsOk(s);
    RecordsOkThroughout(s, m, n);
    EditsReplay(m, steps, t, dir);
  }

  // ---------------------------------------------------------------------------------------
  // Main results: no deadlock

  ghost predicate HolderKnows(s: State, key: string)
    requires key in s.world.taskLocks
  {
    var h := s.world.taskLocks[key];
    && h in s.ops && !s.ops[h].life.Stuck?
    && (Active(s, h) ==> s.ops[h].lease.Some? && LockKey(s.world.env, s.ops[h].lease.value) == key)
  }

  /** A lock file of a live holder belongs to a lock that the holder knows it has, and no holder is stuck. */
  ghost predicate HoldersKnow(s: State) {
    && (s.world.global.Some? ==>
          var h := s.world.global.value; h in s.ops && !s.ops[h].life.Stuck? && (Active(s, h) ==> s.ops[h].global))
    && (forall key :: key in s.world.taskLocks ==> HolderKnows(s, key))
  }

  const GO_ON := Hypotheses(false, false, true, true)

  /** A step takes a lock file for its own operation, drops its own, or leaves it alone. */
  lemma TaskLockMoves(w: World, o: OpId, op: Op, a: Action, key: string)
    requires ShapeInv(w, o, op) && Ready(w, op, a) && (Releases(op) ==> a != Advance(false))
    ensures var (w', op') := Effect(w, o, op, a);
            key in w'.taskLocks ==>
              || (w'.taskLocks[key] == o && op'.lease.Some? && LockKey(w.env, op'.lease.value) == key)
              || (key in w.taskLocks && w'.taskLocks[key] == w.taskLocks[key]
                  && (op'.lease == op.lease || (op.lease.Some? && LockKey(w.env, op.lease.value) != key)
                      || (op.lease.None? && a.Acquire?)))
  {
  }

  lemma TaskLockKept(s: State, o: OpId, a: Action, key: string)
    requires LocksOk(s) && HoldersKnow(s) && Allowed(GO_ON, s, Do(o, a))
    requires key in Apply(s, Do(o, a)).world.taskLocks
    ensures HolderKnows(Apply(s, Do(o, a)), key)
  {
    assert ShapeInv(s.world, o, s.ops[o]);
    TaskLockMoves(s.world, o, s.ops[o], a, key);
    OwnRequest(s.world, o, s.ops[o], a);
    if key in s.world.taskLocks { assert HolderKnows(s, key); }
  }

  lemma GlobalLockKept(s: State, o: OpId, a: Action)
    requires LocksOk(s) && HoldersKnow(s) && Allowed(GO_ON, s, Do(o, a))
    ensures var s' := Apply(s, Do(o, a));
            s'.world.global.Some? ==>
              var h := s'.world.global.value;
              h in s'.ops && !s'.ops[h].life.Stuck? && (Active(s', h) ==> s'.ops[h].global)
  {
    assert ShapeInv(s.world, o, s.ops[o]);
    OwnRequest(s.world, o, s.ops[o], a);
  }

  lemma HoldersKnowKept(s: State, step: Step)
    requires LocksOk(s) && HoldersKnow(s) && Allowed(GO_ON, s, step)
    ensures HoldersKnow(Apply(s, step))
  {
    var s' := Apply(s, step);
    match step
    case Do(o, a) =>
      GlobalLockKept(s, o, a);
      forall key | key in s'.world.taskLocks ensures HolderKnows(s', key) { TaskLockKept(s, o, a, key); }
    case _ =>
      forall key | key in s'.world.taskLocks ensures HolderKnows(s', key) { assert HolderKnows(s, key); }
  }

  lemma NextHoldersKnow(s: State, t: State)
    requires LocksOk(s) && HoldersKnow(s) && Next(GO_ON, s, t)
    ensures LocksOk(t) && HoldersKnow(t)
  {
    var step :| Allowed(GO_ON, s, step) && Apply(s, step) == t;
    LocksOkKept(s, step);
    HoldersKnowKept(s, step);
  }

  lemma {:induction false} HoldersKnowThroughout(s: State, t: State, n: nat)
    requires LocksOk(s) && HoldersKnow(s) && Continues(GO_ON, s, t, n)
    ensures LocksOk(t) && HoldersKnow(t)
    decreases n
  {
    if n > 0 {
      var m :| Continues(GO_ON, s, m, n - 1) && Next(GO_ON, m, t);
      HoldersKnowThroughout(s, m, n - 1);
      NextHoldersKnow(m, t);
    }
  }

  predicate Unfinished(s: State, o: OpId) {
    o in s.ops && s.ops[o].life.Lives? && !s.ops[o].pc.Done?
  }

  /** The action that an operation takes unless it waits for a lock; nothing fails but Create. */
  ghost function Onward(op: Op): Action
    requires !op.pc.Done?
  {
    if Waits(op.pc) then Acquire
    else if Lists(op.pc) then List(true)
    else if Scans(op.pc) then
      if op.pc.todo == {} then ScanEnd else (var id :| id in op.pc.todo; Scan(id, true))
    else Advance(!op.pc.Create?)
  }

  /** No read and no unlock fails. */
  const SMOOTH := Hypotheses(true, false, true, true)

  /** Some unfinished operation can take a step that is not giving up a lock wait. */
  ghost predicate GoesOn(s: State) {
    exists p, a :: a != GiveUp && Unfinished(s, p) && Allowed(SMOOTH, s, Do(p, a))
  }

  /** An operation that has its task lock never waits for another lock. */
  lemma TaskHolderRuns(s: State, h: OpId)
    requires LocksOk(s) && Active(s, h) && s.ops[h].lease.Some?
    ensures !Waits(s.ops[h].pc)
    ensures Unfinished(s, h) && Enabled(s, Do(h, Onward(s.ops[h]))) && GoesOn(s)
  {
    assert ShapeInv(s.world, h, s.ops[h]);
    assert Allowed(SMOOTH, s, Do(h, Onward(s.ops[h])));
  }

  lemma WaitsForTask(s: State, o: OpId)
    requires LocksOk(s) && HoldersKnow(s) && Unfinished(s, o) && !s.ops[o].pc.WantGlobal?
    ensures GoesOn(s)
  {
    var pc := s.ops[o].pc;
    if LockFree(s, pc) {
      assert Allowed(SMOOTH, s, Do(o, Onward(s.ops[o])));
    } else {
      var key := LockKey(s.world.env, pc.id);
      assert HolderKnows(s, key);
      TaskHolderRuns(s, s.world.taskLocks[key]);
    }
  }

  /**
   If no unlock gives up and crashed holders can be found dead: in every reachable state with an
   unfinished operation, some unfinished operation can go on without any lock wait timing out.
   */
  lemma NoDeadlock(s: State, t: State, n: nat, o: OpId)
    requires Idle(s) && Continues(GO_ON, s, t, n) && Unfinished(t, o)
    ensures GoesOn(t)
  {
    HoldersKnowThroughout(s, t, n);
    if !t.ops[o].pc.WantGlobal? {
      WaitsForTask(t, o);
    } else if LockFree(t, WantGlobal) {
      assert Allowed(SMOOTH, t, Do(o, Acquire));
    } else {
      var p := t.world.global.value;
      assert ShapeInv(t.world, p, t.ops[p]);
      WaitsForTask(t, p);
    }
  }
}
