/**
 The service operations of internal/taskservice that read and write task metadata, as
 small-step programs over one store, the store-wide lock and the per-task locks.

 Operations interleave arbitrarily and may crash between any two steps.  ListIDs, every
 ReadMeta, every replacement of a meta.json and every removal is a step of its own, so a scan
 over the store is never atomic; a removal without a lock takes the record first and its directory later.
 A read may fail, and an unlock may give up and leave its lock file.
 A lock whose holder lives cannot be taken over, which is what LeaseSafety.MutualExclusionHolds
 establishes; one whose holder crashed can be, unless the holder's identity cannot be refuted.
 */
module TaskStore {
  import opened Wrappers

  type Id = string
  type OpId = int

  /**
   What the file system and the encoding do to strings.  `fold` gives the directory entry that a path
   opens, whatever spelling it uses; `stored` is what a name reads like once it was written as JSON,
   which replaces bytes that are not UTF-8.
   */
  datatype Env = Env(fold: string -> Id, stored: string -> string)

  /** The listed spelling of an entry opens that entry, and what was read is written back as it is. */
  ghost predicate Stable(env: Env) {
    (forall x :: env.fold(env.fold(x)) == env.fold(x)) && (forall x :: env.stored(env.stored(x)) == env.stored(x))
  }

  /** A meta.json: the ID that the record itself carries, and the fields that no operation edits. */
  datatype Meta = Meta(id: string, name: string, labels: seq<string>, config: int)

  /** What the caller asked for.  Manage is Start, Stop, Restart or Remove of one reference. */
  datatype Request =
    | Run(name: string, labels: seq<string>, config: int, replace: bool)
    | Rename(ref: string, newName: string)
    | SetLabels(ref: string, newLabels: seq<string>)
    | Manage(ref: string, removes: bool)
    | Cleanup(target: Id)

  /** The next thing an operation does. */
  datatype Pc =
    | WantGlobal
    | ListTaken | ScanTaken(todo: set<Id>)                          // Store.IsNameTaken
    | TryID | ListResolve | ScanResolve(todo: set<Id>, matches: seq<Id>)  // Store.Resolve
    | WantTask(id: Id)
    | Reread(id: Id)                   // ReadMeta under the task lock
    | Remove(id: Id)
    | ReleaseOld                       // Run: unlock the replaced task
    | Create
    | WantNew(id: Id)                  // Run: lock the created task
    | Withdraw(id: Id)                 // Run: that lock was not obtained
    | ReleaseGlobal(id: Id)            // Run: hand over to the task lock
    | Launch(id: Id)
    | Abandon(id: Id)
    | ReadForWrite(id: Id) | WriteBack(id: Id, meta: Meta)          // Store.Rename, Store.SetLabels
    | Finish                           // deferred unlocks: task lease, then global lease
    | Done

  /** A stuck operation has crashed, and a reused PID that cannot be told apart keeps its locks. */
  datatype Life = Lives | Crashed | Stuck

  datatype Op = Op(request: Request, pc: Pc, global: bool, lease: Option<Id>, life: Life)

  /** What the operations share: the task directories and the lock files. */
  datatype World = World(
    env: Env,
    store: map<Id, Meta>,              // the records, by task directory
    dirs: set<Id>,                     // the task directories that exist
    ids: set<Id>,                      // every directory name ever used
    global: Option<OpId>,              // holder of the store-wide lock
    taskLocks: map<string, OpId>)      // holder of each per-task lock file

  datatype State = State(world: World, ops: map<OpId, Op>)

  datatype Action =
    | Acquire                          // the lock that the operation waits for
    | GiveUp                           // the lock wait ends without the lock
    | List(ok: bool)
    | Scan(id: Id, ok: bool)
    | ScanEnd
    | Make(id: Id)
    | Advance(ok: bool)                // ok: the call succeeds or the operation wants to go on

  datatype Step =
    | Submit(o: OpId, request: Request)
    | Crash(o: OpId, life: Life)
    | SelfRemove(id: Id)               // the supervisor of an --rm task removes its record, without a lock
    | SelfRemoveDir(id: Id)            // and the directory, once it is empty
    | Do(o: OpId, action: Action)

  // ---------------------------------------------------------------------------------------
  // Names and lock names

  predicate Digits(s: string) {
    forall i :: 0 <= i < |s| ==> '0' <= s[i] <= '9'
  }

  predicate HexDigits(s: string) {
    forall i :: 0 <= i < |s| ==> '0' <= s[i] <= '9' || 'a' <= s[i] <= 'f' || 'A' <= s[i] <= 'F'
  }

  /** The shape of state.GenerateID: YYYYMMDDTHHMMSS-XXXXXXXX. */
  predicate LooksGenerated(s: string) {
    |s| == 24 && Digits(s[..8]) && s[8] == 'T' && Digits(s[9..15]) && s[15] == '-' && HexDigits(s[16..])
  }

  /** unicode.IsSpace */
  predicate Space(c: char) {
    || c == ' ' || '\t' <= c <= '\r' || c == '\U{0085}' || c == '\U{00A0}' || c == '\U{1680}'
    || '\U{2000}' <= c <= '\U{200A}' || c == '\U{2028}' || c == '\U{2029}' || c == '\U{202F}'
    || c == '\U{205F}' || c == '\U{3000}'
  }

  /** validation.ValidateName accepts. */
  predicate ValidName(s: string) {
    && (exists i :: 0 <= i < |s| && !Space(s[i]))
    && s != "." && s != ".."
    && (forall i :: 0 <= i < |s| ==> s[i] != '/' && s[i] != '\\' && s[i] >= ' ' && s[i] != '\U{007F}')
    && !LooksGenerated(s)
  }

  predicate ValidRequest(r: Request) {
    match r
    case Run(name, _, _, _) => ValidName(name)
    case Rename(_, newName) => ValidName(newName)
    case _ => true
  }

  function SafeChar(c: char): char {
    if 'a' <= c <= 'z' || 'A' <= c <= 'Z' || '0' <= c <= '9' || c == '-' || c == '_' || c == '.' then c else '_'
  }

  /** safeLockName; two IDs may share one lock file. */
  function LockName(id: Id): string {
    if id == "" then "task" else seq(|id|, i requires 0 <= i < |id| => SafeChar(id[i]))
  }

  // ---------------------------------------------------------------------------------------
  // The code

  function WantedName(r: Request): string {
    match r
    case Run(name, _, _, _) => name
    case Rename(_, newName) => newName
    case _ => ""
  }

  function Reference(r: Request): string {
    match r
    case Run(name, _, _, _) => name
    case Cleanup(id) => id
    case _ => r.ref
  }

  function FirstPc(r: Request): Pc {
    match r
    case Run(_, _, _, _) => WantGlobal
    case Rename(_, _) => WantGlobal
    case Cleanup(id) => WantTask(id)
    case _ => TryID
  }

  /** The lock file that a reference opens. */
  function LockKey(env: Env, id: Id): string {
    env.fold(LockName(id))
  }

  function TaskHolder(w: World, id: Id): Option<OpId> {
    if LockKey(w.env, id) in w.taskLocks then Some(w.taskLocks[LockKey(w.env, id)]) else None
  }

  /** A lock can be taken if nobody holds it or its holder crashed and can be found dead. */
  predicate Free(s: State, holder: Option<OpId>) {
    holder.Some? && holder.value in s.ops ==> s.ops[holder.value].life.Crashed?
  }

  predicate LockFree(s: State, pc: Pc) {
    match pc
    case WantGlobal => Free(s, s.world.global)
    case WantTask(id) => Free(s, TaskHolder(s.world, id))
    case WantNew(id) => Free(s, TaskHolder(s.world, id))
    case _ => true
  }

  predicate Waits(pc: Pc) {
    pc.WantGlobal? || pc.WantTask? || pc.WantNew?
  }

  predicate Scans(pc: Pc) {
    pc.ScanTaken? || pc.ScanResolve?
  }

  predicate Lists(pc: Pc) {
    pc.ListTaken? || pc.ListResolve?
  }

  /** Which action the code of operation `op` may take next, locks aside. */
  predicate Ready(w: World, op: Op, a: Action) {
    match a
    case Acquire => Waits(op.pc)
    case GiveUp => Waits(op.pc)
    case List(_) => Lists(op.pc)
    case Scan(id, _) => Scans(op.pc) && id in op.pc.todo
    case ScanEnd => Scans(op.pc) && op.pc.todo == {}
    case Make(id) => op.pc.Create? && op.request.Run? && LooksGenerated(id) && w.env.fold(id) !in w.ids
    case Advance(ok) => !Waits(op.pc) && !Lists(op.pc) && !Scans(op.pc) && !op.pc.Done? && (op.pc.Create? ==> !ok)
  }

  predicate Enabled(s: State, step: Step) {
    match step
    case Submit(o, r) => o !in s.ops && ValidRequest(r)
    case Crash(o, life) => o in s.ops && !life.Lives?
    case SelfRemove(id) => id in s.world.store
    case SelfRemoveDir(id) => id in s.world.dirs && id !in s.world.store
    case Do(o, a) =>
      && o in s.ops && s.ops[o].life.Lives?
      && Ready(s.world, s.ops[o], a)
      && (a.Acquire? ==> LockFree(s, s.ops[o].pc))
  }

  function Delete(w: World, id: Id): World {
    w.(store := w.store - {w.env.fold(id)}, dirs := w.dirs - {w.env.fold(id)})
  }

  /** Unlock; if it gives up, the lock file stays. */
  function DropLease(w: World, op: Op, ok: bool): (World, Op) {
    (if op.lease.Some? && ok then w.(taskLocks := w.taskLocks - {LockKey(w.env, op.lease.value)}) else w,
     op.(lease := None))
  }

  function DropGlobal(w: World, op: Op, ok: bool): (World, Op) {
    (if ok then w.(global := None) else w, op.(global := false))
  }

  /** What Store.Rename and Store.SetLabels write back: the whole record as read, with one field new. */
  function Edited(env: Env, r: Request, meta: Meta): Meta {
    match r
    case Rename(_, newName) => meta.(name := env.stored(newName))
    case SetLabels(_, newLabels) => meta.(labels := newLabels)
    case _ => meta
  }

  /** The decision once IsNameTaken has answered. */
  function NamePc(op: Op, taken: bool): Pc {
    match op.request
    case Run(_, _, _, replace) => if !taken then Create else if replace then TryID else Finish
    case Rename(_, _) => if taken || op.lease.None? then Finish else ReadForWrite(op.lease.value)
    case _ => Finish
  }

  /** The end of Resolve's scan: none, one or several tasks carry the name. */
  function ResolvedPc(r: Request, matches: seq<Id>): Pc {
    if |matches| == 0 then if r.Run? then Create else Finish
    else if |matches| == 1 then WantTask(matches[0])
    else Finish
  }

  /** The decision after the re-read under the task lock; `ok` is the outcome of what else it depends on. */
  function RereadPc(w: World, r: Request, id: Id, ok: bool): Pc {
    var dir := w.env.fold(id);
    match r
    case Run(name, _, _, _) =>
      if dir !in w.store then ReleaseOld
      else if !ok then Finish
      else if w.store[dir].name != name then ReleaseOld else Remove(id)
    case Rename(_, newName) =>
      if dir !in w.store || !ok || w.store[dir].name == newName then Finish else ListTaken
    case SetLabels(_, _) => if dir in w.store && ok then ReadForWrite(id) else Finish
    case Manage(_, removes) => if dir in w.store && ok && removes then Remove(id) else Finish
    case Cleanup(_) => if dir in w.store && ok then Remove(id) else Finish
  }

  /** Store.writeMeta goes to the directory that the record names, and fails only if that is not there. */
  function Write(w: World, r: Request, meta: Meta): World {
    var dir := w.env.fold(meta.id);
    if dir in w.dirs then w.(store := w.store[dir := Edited(w.env, r, meta)]) else w
  }

  function Advanced(w: World, op: Op, ok: bool): (World, Op) {
    var r := op.request;
    match op.pc
    case TryID =>
      (w, op.(pc := if ok && w.env.fold(Reference(r)) in w.store then WantTask(Reference(r)) else ListResolve))
    case Reread(id) => (w, op.(pc := RereadPc(w, r, id, ok)))
    case Remove(id) => if ok then (Delete(w, id), op.(pc := if r.Run? then ReleaseOld else Finish))
                       else (w, op.(pc := Finish))
    case ReleaseOld => DropLease(w, op.(pc := Create), ok)
    case Create => (w, op.(pc := Finish))
    case Withdraw(id) => (if ok then Delete(w, id) else w, op.(pc := Finish))
    case ReleaseGlobal(id) => DropGlobal(w, op.(pc := Launch(id)), ok)
    case Launch(id) => (w, op.(pc := if ok then Finish else Abandon(id)))
    case Abandon(id) => (if ok then Delete(w, id) else w, op.(pc := Finish))
    case ReadForWrite(id) =>
      (w, op.(pc := if ok && w.env.fold(id) in w.store then WriteBack(id, w.store[w.env.fold(id)]) else Finish))
    case WriteBack(id, meta) => (if ok then Write(w, r, meta) else w, op.(pc := Finish))
    case Finish =>
      if op.lease.Some? then DropLease(w, op, ok)
      else if op.global then DropGlobal(w, op, ok) else (w, op.(pc := Done))
    case _ => (w, op)
  }

  function Acquired(w: World, o: OpId, op: Op): (World, Op) {
    match op.pc
    case WantGlobal =>
      (w.(global := Some(o)), op.(global := true, pc := if op.request.Run? then ListTaken else TryID))
    case WantTask(id) =>
      (w.(taskLocks := w.taskLocks[LockKey(w.env, id) := o]), op.(lease := Some(id), pc := Reread(id)))
    case WantNew(id) =>
      (w.(taskLocks := w.taskLocks[LockKey(w.env, id) := o]), op.(lease := Some(id), pc := ReleaseGlobal(id)))
    case _ => (w, op)
  }

  function ScannedPc(store: map<Id, Meta>, op: Op, id: Id, ok: bool): Pc
    requires Scans(op.pc)
  {
    match op.pc
    case ScanTaken(todo) =>
      if ok && id in store && store[id].name == WantedName(op.request) then NamePc(op, true) else ScanTaken(todo - {id})
    case ScanResolve(todo, matches) =>
      ScanResolve(todo - {id},
                  if ok && id in store && store[id].name == Reference(op.request) then matches + [id] else matches)
  }

  /** The world and the operation after action `a` of operation `o`. */
  function Effect(w: World, o: OpId, op: Op, a: Action): (World, Op)
    requires Ready(w, op, a)
  {
    match a
    case Acquire => Acquired(w, o, op)
    case GiveUp => (w, op.(pc := if op.pc.WantNew? then Withdraw(op.pc.id) else Finish))
    case List(ok) =>
      (w, op.(pc := if !ok then Finish
                    else if op.pc.ListTaken? then ScanTaken(w.dirs) else ScanResolve(w.dirs, [])))
    case Scan(id, ok) => (w, op.(pc := ScannedPc(w.store, op, id, ok)))
    case ScanEnd =>
      (w, op.(pc := if op.pc.ScanTaken? then NamePc(op, false) else ResolvedPc(op.request, op.pc.matches)))
    case Make(id) =>
      var r := op.request;
      var dir := w.env.fold(id);
      (w.(store := w.store[dir := Meta(id, w.env.stored(r.name), r.labels, r.config)],
          dirs := w.dirs + {dir}, ids := w.ids + {dir}),
       op.(pc := WantNew(id)))
    case Advance(ok) => Advanced(w, op, ok)
  }

  function Apply(s: State, step: Step): State
    requires Enabled(s, step)
  {
    match step
    case Submit(o, r) => s.(ops := s.ops[o := Op(r, FirstPc(r), false, None, Lives)])
    case Crash(o, life) => s.(ops := s.ops[o := s.ops[o].(life := life)])
    case SelfRemove(id) => s.(world := s.world.(store := s.world.store - {id}))
    case SelfRemoveDir(id) => s.(world := s.world.(dirs := s.world.dirs - {id}))
    case Do(o, a) =>
      var (w, op) := Effect(s.world, o, s.ops[o], a);
      State(w, s.ops[o := op])
  }

  // ---------------------------------------------------------------------------------------
  // Hypotheses about steps

  /** A scan can read every task that is there. */
  predicate ReadsSucceed(s: State, step: Step) {
    step.Do? && step.action.Scan? && !step.action.ok ==> step.action.id !in s.world.store
  }

  /** A record that goes back where it came from finds one there, unless the whole directory is gone. */
  predicate FindsRecord(w: World, op: Op, a: Action) {
    op.pc.WriteBack? && a == Advance(true) && w.env.fold(op.pc.meta.id) == w.env.fold(op.pc.id) ==>
      w.env.fold(op.pc.id) in w.dirs ==> w.env.fold(op.pc.id) in w.store
  }

  /** No record is written back into what a removal has left of its directory. */
  predicate WholeRemovals(s: State, step: Step) {
    step.Do? && step.o in s.ops ==> FindsRecord(s.world, s.ops[step.o], step.action)
  }

  /** The next step of the operation releases a lock. */
  predicate Releases(op: Op) {
    op.pc.ReleaseOld? || op.pc.ReleaseGlobal? || (op.pc.Finish? && (op.lease.Some? || op.global))
  }

  /** No unlock gives up. */
  predicate UnlocksSucceed(s: State, step: Step) {
    step.Do? && step.o in s.ops && Releases(s.ops[step.o]) ==> step.action != Advance(false)
  }

  /** A crashed holder can be found dead. */
  predicate CrashesShow(s: State, step: Step) {
    step.Crash? ==> step.life.Crashed?
  }

  /** Which of the four hypotheses a run is known to satisfy. */
  datatype Hypotheses = Hypotheses(scans: bool, removals: bool, unlocks: bool, crashes: bool)

  predicate Allowed(h: Hypotheses, s: State, step: Step) {
    && Enabled(s, step)
    && (h.scans ==> ReadsSucceed(s, step))
    && (h.removals ==> WholeRemovals(s, step))
    && (h.unlocks ==> UnlocksSucceed(s, step))
    && (h.crashes ==> CrashesShow(s, step))
  }

  // ---------------------------------------------------------------------------------------
  // Conditions on the store and its environment

  /** A directory that Run may still create. */
  ghost predicate Creatable(w: World, dir: Id) {
    dir !in w.ids && exists id :: LooksGenerated(id) && w.env.fold(id) == dir
  }

  /** The record names the directory that it is in. */
  predicate AtHome(w: World, dir: Id)
    requires dir in w.store
  {
    w.env.fold(w.store[dir].id) == dir
  }

  /** The directory that a record names is there, or may come. */
  ghost predicate Reaches(w: World, meta: Meta) {
    w.env.fold(meta.id) in w.dirs || Creatable(w, w.env.fold(meta.id))
  }

  /** No record names a directory other than its own that is there or may come. */
  ghost predicate NoStrayRecord(w: World) {
    forall dir :: dir in w.store && !AtHome(w, dir) ==> !Reaches(w, w.store[dir])
  }

  /** All references that open a directory lock the same file. */
  ghost predicate SharesLock(env: Env, dir: Id) {
    forall a, b :: env.fold(a) == dir && env.fold(b) == dir ==> LockKey(env, a) == LockKey(env, b)
  }

  /** A task whose record can be rewritten, now or once it is created, has one lock. */
  ghost predicate OneLockEach(w: World) {
    forall dir :: (dir in w.store && AtHome(w, dir)) || Creatable(w, dir) ==> SharesLock(w.env, dir)
  }

  /**
   No valid name opens a task directory; the only harmless exception is a task called like the name
   whose record can never be rewritten.
   */
  ghost predicate NamesOpenNoTask(w: World) {
    forall n :: ValidName(n) ==>
      var dir := w.env.fold(n);
      !Creatable(w, dir) && (dir in w.store ==> w.store[dir].name == n && !AtHome(w, dir))
  }

  ghost predicate NamesStoredAsGiven(env: Env) {
    forall n :: ValidName(n) ==> env.stored(n) == n
  }

  // ---------------------------------------------------------------------------------------
  // Runs and properties

  ghost predicate UniqueNames(store: map<Id, Meta>) {
    forall a, b :: a in store && b in store && store[a].name == store[b].name ==> a == b
  }

  /** A store as it can be read from disk, with unique names, and no operation under way. */
  ghost predicate Idle(s: State) {
    && Stable(s.world.env) && UniqueNames(s.world.store)
    && s.world.store.Keys <= s.world.dirs <= s.world.ids
    && (forall dir :: dir in s.world.dirs ==> s.world.env.fold(dir) == dir)
    && (forall dir :: dir in s.world.store ==>
          s.world.env.stored(s.world.store[dir].name) == s.world.store[dir].name)
    && s.world.global == None && s.world.taskLocks == map[] && s.ops == map[]
  }

  ghost predicate Next(h: Hypotheses, p: State, s: State) {
    exists step :: Allowed(h, p, step) && Apply(p, step) == s
  }

  /** State `t` comes `n` steps after `s`, all of them allowed under `h`. */
  ghost predicate Continues(h: Hypotheses, s: State, t: State, n: nat)
    decreases n
  {
    if n == 0 then s == t
    else exists m :: Continues(h, s, m, n - 1) && Next(h, m, t)
  }
}
