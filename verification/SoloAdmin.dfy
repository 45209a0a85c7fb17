// What a permit holder and the administrators do when nobody else acts: each of their
// commands is a run of single steps (Protocol) that ends as the methods promise.
module SoloAdmins {
  import opened Wrappers
  import opened Protocol
  import opened ProtocolInvariant
  import opened ProtocolRuns
  import opened SoloScan
  import opened SoloTurns

  lemma GoneAfterPut(s: State, p: Pid, a: Proc)
    ensures Gone(Put(s, p, a), p) == Gone(s, p)
  {
    WithoutIs(s.procs[p := a], p);
    WithoutIs(s.procs, p);
    assert s.procs[p := a] - {p} == s.procs - {p};
  }

  lemma DrainOne(c: Config, p: Pid, s: State, a: Action, t: State)
    requires p in s.procs && DrainStep(s, p, a, t)
    ensures Reaches(c, p, s, t)
  {
    Step(c, p, s, a, t);
  }

  lemma IdleOne(c: Config, p: Pid, s: State, a: Action, t: State)
    requires p in s.procs && IdleStep(s, p, a, t)
    ensures Reaches(c, p, s, t)
  {
    Step(c, p, s, a, t);
  }

  lemma CapacityOne(c: Config, p: Pid, s: State, a: Action, t: State)
    requires p in s.procs && CapacityStep(s, p, a, t)
    ensures Reaches(c, p, s, t)
  {
    Step(c, p, s, a, t);
  }

  lemma JobOne(c: Config, p: Pid, s: State, a: Action, t: State)
    requires p in s.procs && JobStep(s, p, a, t)
    ensures Reaches(c, p, s, t)
  {
    Step(c, p, s, a, t);
  }

  lemma DropOne(c: Config, p: Pid, s: State, a: Action, t: State)
    requires p in s.procs && DropStep(s, p, a, t)
    ensures Reaches(c, p, s, t)
  {
    Step(c, p, s, a, t);
  }

  // ---- drain and resume --------------------------------------------------------------------

  lemma AdminLeaves(c: Config, s: State, p: Pid) returns (t: State)
    requires p in s.procs && s.procs[p].pc.AdminLeave?
    ensures Reaches(c, p, s, t) && t == Gone(s, p).(queue := None)
  {
    t := Gone(s, p).(queue := None);
    DrainOne(c, p, s, AdminDone, t);
  }

  lemma DrainSets(c: Config, s: State, p: Pid, enabled: bool) returns (t: State)
    requires p in s.procs && s.procs[p].pc == DrainWait(enabled) && s.queue == None
    ensures Reaches(c, p, s, t)
    ensures t == Put(s, p, s.procs[p].(inQueue := true, pc := AdminLeave)).(queue := Some(p), drain := enabled)
  {
    var m := Put(s, p, s.procs[p].(inQueue := true, pc := DrainIn(enabled))).(queue := Some(p));
    DrainOne(c, p, s, Enter, m);
    t := Moved(m, p, AdminLeave).(drain := enabled);
    DrainOne(c, p, m, SetDrain, t);
    Trans(c, p, s, m, t);
    PutTwice(s, p, m.procs[p], t.procs[p]);
  }

  // The flag is as wanted, and nothing else differs.
  lemma DrainIsRun(c: Config, s: State, p: Pid, enabled: bool) returns (t: State)
    requires p in s.procs && s.procs[p].pc == DrainWait(enabled) && s.queue == None
    ensures Reaches(c, p, s, t) && t == Gone(s, p).(drain := enabled)
  {
    var m := DrainSets(c, s, p, enabled);
    t := AdminLeaves(c, m, p);
    Trans(c, p, s, m, t);
    GoneAfterPut(s, p, m.procs[p]);
  }

  // ---- the capacity ---------------------------------------------------------------------------

  // A drained and idle pool, as set-capacity finds it.
  lemma CapacityChecks(c: Config, s: State, p: Pid, wanted: nat) returns (t: State)
    requires p in s.procs && s.procs[p].pc == CapWait(wanted) && s.queue == None
    requires s.drain && 1 <= wanted <= 2 && 0 !in s.active && 1 !in s.active && s.leases == map[]
    ensures Reaches(c, p, s, t)
    ensures t == Put(s, p, s.procs[p].(inQueue := true, pc := CapIdle(wanted))).(queue := Some(p))
  {
    var a := Put(s, p, s.procs[p].(inQueue := true, pc := CapIn(wanted))).(queue := Some(p));
    DrainOne(c, p, s, Enter, a);
    t := CapacityCounts(c, a, p, wanted);
    Trans(c, p, s, a, t);
    PutTwice(s, p, a.procs[p], t.procs[p]);
  }

  lemma CapacityCounts(c: Config, s: State, p: Pid, wanted: nat) returns (t: State)
    requires p in s.procs && s.procs[p].pc == CapIn(wanted)
    requires s.drain && 1 <= wanted <= 2 && 0 !in s.active && 1 !in s.active && s.leases == map[]
    ensures Reaches(c, p, s, t) && t == Moved(s, p, CapIdle(wanted))
  {
    var m := CapacityMoves(c, s, p, CheckDrain, CapCount(wanted, 0));
    var n := CapacitySlots(c, m, p, wanted);
    t := CapacityLists(c, n, p, wanted);
    Trans(c, p, s, m, n);
    Trans(c, p, s, n, t);
    PutTwice(s, p, m.procs[p], n.procs[p]);
    PutTwice(s, p, n.procs[p], t.procs[p]);
  }

  lemma CapacitySlots(c: Config, s: State, p: Pid, wanted: nat) returns (t: State)
    requires p in s.procs && s.procs[p].pc == CapCount(wanted, 0) && 0 !in s.active && 1 !in s.active
    ensures Reaches(c, p, s, t) && t == Moved(s, p, CapCount(wanted, 2))
  {
    var m := CapacityMoves(c, s, p, CountSlot, CapCount(wanted, 1));
    t := CapacityMoves(c, m, p, CountSlot, CapCount(wanted, 2));
    Trans(c, p, s, m, t);
    PutTwice(s, p, m.procs[p], t.procs[p]);
  }

  lemma CapacityLists(c: Config, s: State, p: Pid, wanted: nat) returns (t: State)
    requires p in s.procs && s.procs[p].pc == CapCount(wanted, 2) && s.leases == map[]
    ensures Reaches(c, p, s, t) && t == Moved(s, p, CapIdle(wanted))
  {
    var m := CapacityMoves(c, s, p, CountDone, CapList(wanted));
    t := CapacityMoves(c, m, p, CheckIdle, CapIdle(wanted));
    Trans(c, p, s, m, t);
    PutTwice(s, p, m.procs[p], t.procs[p]);
  }

  lemma CapacityMoves(c: Config, s: State, p: Pid, a: Action, pc: Pc) returns (t: State)
    requires p in s.procs && IdleStep(s, p, a, Moved(s, p, pc))
    ensures Reaches(c, p, s, t) && t == Moved(s, p, pc)
  {
    t := Moved(s, p, pc);
    IdleOne(c, p, s, a, t);
  }

  // The capacity is written and the configuration saved, or it is not saved and the old
  // capacity is written back.
  lemma CapacityWrites(c: Config, s: State, p: Pid, wanted: nat, saved: bool) returns (t: State)
    requires p in s.procs && s.procs[p].pc == CapIdle(wanted)
    ensures Reaches(c, p, s, t)
    ensures t == Gone(s, p).(queue := None, capacity := if saved then wanted else s.capacity)
  {
    var a := Moved(s, p, CapWritten(s.capacity)).(capacity := wanted);
    CapacityOne(c, p, s, WriteCapacity, a);
    var b := Moved(a, p, AdminLeave).(capacity := if saved then wanted else s.capacity);
    var act := if saved then Persisted else RolledBack;
    CapacityOne(c, p, a, act, b);
    Trans(c, p, s, a, b);
    t := AdminLeaves(c, b, p);
    Trans(c, p, s, b, t);
    PutTwice(s, p, a.procs[p], b.procs[p]);
    GoneAfterPut(s, p, b.procs[p]);
  }

  // On a drained and idle pool the change goes through when it can be saved, and is taken
  // back when it cannot.
  lemma CapacityIsRun(c: Config, s: State, p: Pid, wanted: nat, saved: bool) returns (t: State)
    requires p in s.procs && s.procs[p].pc == CapWait(wanted) && s.queue == None
    requires s.drain && 1 <= wanted <= 2 && 0 !in s.active && 1 !in s.active && s.leases == map[]
    ensures Reaches(c, p, s, t) && t == Gone(s, p).(capacity := if saved then wanted else s.capacity)
  {
    var m := CapacityChecks(c, s, p, wanted);
    t := CapacityWrites(c, m, p, wanted, saved);
    Trans(c, p, s, m, t);
    GoneAfterPut(s, p, m.procs[p]);
  }

  // ---- a permit ---------------------------------------------------------------------------------

  // The child is started and recorded.
  lemma JobStarts(c: Config, s: State, p: Pid, x: Slot, k: Child) returns (t: State)
    requires p in s.procs && s.procs[p].pc.Ready? && s.procs[p].slot == Some(x) && k !in s.kids
    ensures Reaches(c, p, s, t)
    ensures t == Moved(s, p, Attached(k)).(
                   kids := s.kids + {k}, tenant := s.tenant[k := x], lost := s.lost - {k},
                   active := s.active[x := Running(p, k)])
  {
    var a := Moved(s, p, Spawned(k)).(kids := s.kids + {k}, tenant := s.tenant[k := x], lost := s.lost - {k});
    JobOne(c, p, s, Spawn(k), a);
    t := Moved(a, p, Attached(k)).(active := a.active[x := Running(p, k)]);
    JobOne(c, p, a, MarkRunning, t);
    Trans(c, p, s, a, t);
    PutTwice(s, p, a.procs[p], t.procs[p]);
  }

  // Its child gone, the permit gives back metadata and slot, and the process ends.
  lemma JobEnds(c: Config, s: State, p: Pid, x: Slot, k: Child) returns (t: State)
    requires p in s.procs && s.procs[p] == Proc(s.procs[p].owner, false, None, Some(x), Attached(k)) && k !in s.kids
    ensures Reaches(c, p, s, t) && t == Gone(s, p).(active := s.active - {x}, locks := s.locks - {x})
  {
    var a := Moved(s, p, Closing);
    JobOne(c, p, s, Reap, a);
    var b := PermitDrops(c, a, p, x);
    Trans(c, p, s, a, b);
    t := Gone(b, p);
    assert WaitStep(b, p, QuitPlain, t);
    Step(c, p, b, QuitPlain, t);
    Trans(c, p, s, b, t);
    PutTwice(s, p, a.procs[p], b.procs[p]);
    GoneAfterPut(s, p, b.procs[p]);
  }

  lemma PermitDrops(c: Config, s: State, p: Pid, x: Slot) returns (t: State)
    requires p in s.procs && s.procs[p] == Proc(s.procs[p].owner, false, None, Some(x), Closing)
    ensures Reaches(c, p, s, t)
    ensures t == Put(s, p, s.procs[p].(pc := Quit, slot := None)).(active := s.active - {x}, locks := s.locks - {x})
  {
    var a := Moved(s, p, Unmarked).(active := Without(s.active, x));
    DropOne(c, p, s, Unmark, a);
    t := Put(a, p, a.procs[p].(pc := Quit, inQueue := false, slot := None)).(locks := Without(a.locks, x));
    DropOne(c, p, a, UnlockSlot, t);
    Trans(c, p, s, a, t);
    WithoutIs(s.active, x);
    WithoutIs(s.locks, x);
    PutTwice(s, p, a.procs[p], t.procs[p]);
  }

  // ---- leaving the queue --------------------------------------------------------------------------

  // A waiter that gives up, because its time is over or its turn was refused, takes its
  // lease file with it.
  lemma WaiterLeaves(c: Config, s: State, p: Pid, n: Name) returns (t: State)
    requires p in s.procs && s.procs[p].pc in {Polled, Quit} && s.procs[p].lease == Some(n) && n in s.leases
    ensures Reaches(c, p, s, t) && t == Gone(s, p).(leases := s.leases - {n})
  {
    if s.procs[p].pc == Quit {
      t := WaiterQuits(c, s, p, n);
    } else {
      var m := Moved(s, p, Quit);
      assert WaitStep(s, p, TimeOut, m);
      Step(c, p, s, TimeOut, m);
      t := WaiterQuits(c, m, p, n);
      Trans(c, p, s, m, t);
      GoneAfterPut(s, p, m.procs[p]);
    }
  }

  lemma WaiterQuits(c: Config, s: State, p: Pid, n: Name) returns (t: State)
    requires p in s.procs && s.procs[p].pc.Quit? && s.procs[p].lease == Some(n) && n in s.leases
    ensures Reaches(c, p, s, t) && t == Gone(s, p).(leases := s.leases - {n})
  {
    var m := Put(s, p, s.procs[p].(pc := Removing(n), lease := None)).(leases := FreedLease(s.leases, n));
    assert WaitStep(s, p, QuitFree, m);
    Step(c, p, s, QuitFree, m);
    t := Gone(m, p).(leases := Without(m.leases, n));
    assert WaitStep(m, p, QuitErase, t);
    Step(c, p, m, QuitErase, t);
    Trans(c, p, s, m, t);
    WithoutIs(m.leases, n);
    GoneAfterPut(s, p, m.procs[p]);
  }
}
