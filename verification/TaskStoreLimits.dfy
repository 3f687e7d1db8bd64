/**
 The conditions of TaskStore are exact.  From every idle store with a trap there is a run that breaks the
 property, and so there is for each hypothesis that is not demanded: names stay unique in all runs exactly
 if scans can read the tasks, removals are whole and there is no trap for names, and no committed edit is
 lost exactly if removals are whole and there is no trap for records.
 */
module TaskStoreLimits {
  import opened TaskStore
  import opened TaskStoreSafety
  import opened TaskStoreRuns
  import opened TaskStoreTraps

  lemma TrapDuplicates(h: Hypotheses, s: State, f: Id, g: Id, k: Id)
    requires Idle(s) && ThreeFresh(TasksOf(s.world), f, g, k)
    requires !(h.scans && h.removals && NoTrapForNames(s.world))
    ensures Duplicates(h, s)
  {
    if !NamesStoredAsGiven(s.world.env) {
      var name :| ValidName(name) && s.world.env.stored(name) != name;
      UnstoredNameDuplicates(h, s, name, f, g);
    } else if !NoStrayRecord(s.world) {
      StrayRecordDuplicates(h, s);
    } else if !OneLockEach(s.world) {
      TwoLocksDuplicate(h, s, f, g);
    } else if !NamesOpenNoTask(s.world) {
      NameLikeIDBreaksUniqueness(h, s, f, g, k);
    } else if !h.scans {
      UnreadTaskDuplicates(h, s, f, g);
    } else {
      RemainsDuplicate(h, s, f, g);
    }
  }

  /**
   From an idle store, while IDs can be generated: two tasks of one name can be reached exactly unless scans
   can read the tasks that are there, nothing is written into what is left of a removed one, and the store
   and its environment hold no trap for names.
   */
  lemma UniqueExactly(h: Hypotheses, s: State, f: Id, g: Id, k: Id)
    requires Idle(s) && ThreeFresh(TasksOf(s.world), f, g, k)
    ensures Duplicates(h, s) <==> !(h.scans && h.removals && NoTrapForNames(s.world))
  {
    if h.scans && h.removals && NoTrapForNames(s.world) {
      forall t | CanReach(h, s, t) ensures UniqueNames(t.world.store) {
        var n: nat :| Continues(h, s, t, n);
        FewerHypotheses(FOR_NAMES, h, s, t, n);
        NamesStayUnique(s, t, n);
      }
    } else {
      TrapDuplicates(h, s, f, g, k);
    }
  }

  lemma {:induction false} LeadsWeaker(h: Hypotheses, g: Hypotheses, m: State, steps: seq<Step>, t: State)
    requires Weaker(h, g) && Leads(g, m, steps, t)
    ensures Leads(h, m, steps, t)
    decreases |steps|
  {
    if steps != [] {
      LeadsWeaker(h, g, Apply(m, steps[0]), steps[1..], t);
    }
  }

  lemma TrapLosesUpdate(h: Hypotheses, s: State, f: Id)
    requires Idle(s) && Fresh(TasksOf(s.world), f) && !(h.removals && NoTrapForRecords(s.world))
    ensures LosesUpdate(h, s)
  {
    if !NoStrayRecord(s.world) {
      StrayRecordLosesUpdate(h, s);
    } else if !OneLockEach(s.world) {
      TwoLocksLoseUpdate(h, s);
    } else {
      RemainsLoseUpdate(h, s, f);
    }
  }

  /**
   From an idle store, while an ID can be generated: a committed edit can be lost exactly unless nothing is
   written into what is left of a removed task and there is no trap for records.
   */
  lemma NoLostUpdateExactly(h: Hypotheses, s: State, f: Id)
    requires Idle(s) && Fresh(TasksOf(s.world), f)
    ensures LosesUpdate(h, s) <==> !(h.removals && NoTrapForRecords(s.world))
  {
    if h.removals && NoTrapForRecords(s.world) {
      forall m, t, n: nat, steps, dir
        | Continues(h, s, m, n) && Leads(h, m, steps, t) && dir in m.world.store && dir in t.world.store
        ensures t.world.store[dir] == Replay(m, steps, dir, m.world.store[dir])
      {
        FewerHypotheses(FOR_RECORDS, h, s, m, n);
        LeadsWeaker(FOR_RECORDS, h, m, steps, t);
        NoLostUpdate(s, m, n, steps, t, dir);
      }
    } else {
      TrapLosesUpdate(h, s, f);
    }
  }
}
