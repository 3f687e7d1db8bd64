/** What the conditions of TaskStore come to on a plain file system, and on one that ignores case. */
module TaskStorePlain {
  import opened TaskStore
  import opened TaskStoreSafety

  /** No task directory is called like something that could be a task's name. */
  predicate NoIDIsAName(store: map<Id, Meta>) {
    forall dir :: dir in store ==> !ValidName(dir)
  }

  /**
   Where each path opens only the entry spelled like it, names are stored as given and every record is
   in the directory that it names, there is no trap exactly if no directory is called like a valid name.
   */
  lemma PlainStoreIsSafeExactly(w: World)
    requires (forall x :: w.env.fold(x) == x) && (forall x :: w.env.stored(x) == x)
    requires forall dir :: dir in w.store ==> w.store[dir].id == dir
    ensures NoTrapForNames(w) <==> NoIDIsAName(w.store)
  {
    forall dir ensures SharesLock(w.env, dir) {}
    if NoIDIsAName(w.store) {
      forall n | ValidName(n)
        ensures var dir := w.env.fold(n);
                !Creatable(w, dir) && (dir in w.store ==> w.store[dir].name == n && !AtHome(w, dir))
      {
        assert !LooksGenerated(n);
      }
    } else {
      var dir :| dir in w.store && ValidName(dir);
      assert w.env.fold(dir) == dir && AtHome(w, dir);
    }
  }

  function LowerT(id: Id): string
    requires LooksGenerated(id)
  {
    id[..8] + ['t'] + id[9..]
  }

  lemma GeneratedIsPlain(id: Id)
    requires LooksGenerated(id)
    ensures forall i :: 0 <= i < |id| ==> SafeChar(id[i]) == id[i]
  {
    forall i | 0 <= i < |id| ensures SafeChar(id[i]) == id[i] {
      if i < 8 { assert id[i] == id[..8][i]; }
      if 9 <= i < 15 { assert id[i] == id[9..15][i - 9]; }
      if 16 <= i { assert id[i] == id[16..][i - 16]; }
    }
  }

  /** Where case does not matter, a generated ID with a lower-case t is a name that opens the task. */
  lemma CaseFoldingIsATrap(w: World, id: Id)
    requires LooksGenerated(id) && w.env.fold(LowerT(id)) == w.env.fold(id) && w.env.fold(id) !in w.ids
    ensures !NamesOpenNoTask(w)
  {
    var n := LowerT(id);
    GeneratedIsPlain(id);
    assert n[8] == 't' && !Space(n[8]);
    assert Creatable(w, w.env.fold(n));
  }
}
