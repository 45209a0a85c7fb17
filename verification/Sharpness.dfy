// Why the bound on live children counts losses: two runs that end with two live children
// under a capacity of one, one by a crash between spawn and mark_running, one by a probe
// of metadata that changed after it was read.
module Sharpness {
  import opened Wrappers
  import opened Protocol
  import opened ProtocolInvariant
  import opened ProtocolRuns

  // A run that ends in state t.
  ghost predicate Ends(c: Config, ss: seq<State>, es: seq<Event>, t: State) {
    Steps(c, ss, es) && ss[|ss| - 1] == t
  }

  ghost predicate OnlyProbesLose(ss: seq<State>, es: seq<Event>) {
    |ss| == |es| + 1 && forall i :: 0 <= i < |es| && Loses(ss[i], es[i]) ==> es[i].a == ProbeDead
  }

  lemma Extend(c: Config, ss: seq<State>, es: seq<Event>, s: State, p: Pid, a: Action, t: State)
    requires Ends(c, ss, es, s) && Next(c, s, p, a, t)
    ensures Ends(c, ss + [t], es + [Event(p, a)], t)
    ensures OnlyProbesLose(ss, es) && (a == Crash ==> !Loses(s, Event(p, a))) ==>
              OnlyProbesLose(ss + [t], es + [Event(p, a)])
  {
    var all, events := ss + [t], es + [Event(p, a)];
    forall i: nat | i < |events| ensures StepAt(c, all, events, i) {
      if i < |es| {
        assert StepAt(c, ss, es, i);
      }
    }
  }

  // A pool of one slot with nobody in the critical section.
  predicate Calm(s: State, p: Pid) {
    p !in s.procs && s.queue == None && s.leases == map[] && !s.drain && s.capacity == 1
  }

  // p in the critical section, without a lease or a slot.
  function At(s: State, p: Pid, pc: Pc): State {
    Put(s, p, Proc(0, true, None, None, pc)).(queue := Some(p))
  }

  // p in the critical section, with the lock on slot zero.
  function Holding(s: State, p: Pid, pc: Pc): State {
    Put(s, p, Proc(0, true, None, Some(0), pc)).(queue := Some(p), locks := s.locks[0 := p])
  }

  // p outside it, with the slot and its metadata.
  function Seated(s: State, p: Pid, pc: Pc): State {
    Put(s, p, Proc(0, false, None, Some(0), pc)).(locks := s.locks[0 := p], active := s.active[0 := Starting(p)])
  }

  // ---- one step each -----------------------------------------------------------------------

  lemma Starts(c: Config, s: State, p: Pid)
    requires Calm(s, p)
    ensures Next(c, s, p, StartRun(0), Put(s, p, Proc(0, false, None, None, Outside)))
  {
  }

  lemma Goes(c: Config, s: State, p: Pid)
    requires Calm(s, p)
    ensures Next(c, Put(s, p, Proc(0, false, None, None, Outside)), p, Enter, At(s, p, Entered))
  {
    var m := Put(s, p, Proc(0, false, None, None, Outside));
    assert At(s, p, Entered).procs == m.procs[p := Proc(0, true, None, None, Entered)];
    assert PruneStep(m, p, Enter, At(s, p, Entered));
  }

  // Steps that move p from one place in the critical section to another.
  lemma Walks(s: State, p: Pid, pc: Pc, pc2: Pc)
    ensures At(s, p, pc2) == Put(At(s, p, pc), p, At(s, p, pc).procs[p].(pc := pc2))
  {
  }

  lemma Lists(c: Config, s: State, p: Pid)
    requires Calm(s, p)
    ensures Next(c, At(s, p, Entered), p, ListStale, At(s, p, Prune({}, {})))
  {
    Walks(s, p, Entered, Prune({}, {}));
    assert At(s, p, Entered).leases.Keys == {};
    assert PruneStep(At(s, p, Entered), p, ListStale, At(s, p, Prune({}, {})));
  }

  lemma Prunes(c: Config, s: State, p: Pid)
    ensures Next(c, At(s, p, Prune({}, {})), p, PruneDone, At(s, p, Gate))
  {
    Walks(s, p, Prune({}, {}), Gate);
    assert PruneStep(At(s, p, Prune({}, {})), p, PruneDone, At(s, p, Gate));
  }

  lemma Opens(c: Config, s: State, p: Pid)
    requires Calm(s, p)
    ensures Next(c, At(s, p, Gate), p, GateOpen, At(s, p, List))
  {
    Walks(s, p, Gate, List);
    assert GateStep(At(s, p, Gate), p, GateOpen, At(s, p, List));
  }

  lemma Scans(c: Config, s: State, p: Pid)
    requires Calm(s, p)
    ensures Next(c, At(s, p, List), p, ListWaiters, At(s, p, Scan({}, 1, 0, 0)))
  {
    Walks(s, p, List, Scan({}, 1, 0, 0));
    assert p % 1 == 0;
    assert GateStep(At(s, p, List), p, ListWaiters, At(s, p, Scan({}, 1, 0, 0)));
  }

  lemma Reads(c: Config, s: State, p: Pid)
    requires 0 !in s.active
    ensures Next(c, At(s, p, Scan({}, 1, 0, 0)), p, ReadAbsent, At(s, p, TryLock({}, 1, 0, 0)))
  {
    Walks(s, p, Scan({}, 1, 0, 0), TryLock({}, 1, 0, 0));
    assert SlotAt(1, 0, 0) == 0;
    assert ScanStep(At(s, p, Scan({}, 1, 0, 0)), p, ReadAbsent, At(s, p, TryLock({}, 1, 0, 0)));
  }

  lemma Finds(c: Config, s: State, p: Pid)
    requires 0 in s.active && s.active[0].Starting?
    ensures Next(c, At(s, p, Scan({}, 1, 0, 0)), p, ReadPresent, At(s, p, Probe({}, 1, 0, 0, s.active[0])))
  {
    Walks(s, p, Scan({}, 1, 0, 0), Probe({}, 1, 0, 0, s.active[0]));
    assert SlotAt(1, 0, 0) == 0;
    assert ScanStep(At(s, p, Scan({}, 1, 0, 0)), p, ReadPresent, At(s, p, Probe({}, 1, 0, 0, s.active[0])));
  }

  // The slot without the metadata a dead supervisor left.
  ghost function Cleaned(s: State): State {
    s.(active := Without(s.active, 0), lost := s.lost + KidsAt(s, 0))
  }

  // The copy that was read may be stale.
  lemma Reclaims(c: Config, s: State, p: Pid, seen: Meta)
    requires 0 in s.active && seen.Starting? && seen.sup !in s.procs && seen.sup != p
    ensures Next(c, At(s, p, Probe({}, 1, 0, 0, seen)), p, ProbeDead, At(Cleaned(s), p, TryLock({}, 1, 0, 0)))
  {
    var m, t := At(s, p, Probe({}, 1, 0, 0, seen)), At(Cleaned(s), p, TryLock({}, 1, 0, 0));
    assert SlotAt(1, 0, 0) == 0 && KidsAt(m, 0) == KidsAt(s, 0);
    assert t.procs == m.procs[p := m.procs[p].(pc := TryLock({}, 1, 0, 0))];
    assert ScanStep(m, p, ProbeDead, t);
  }

  lemma Wins(c: Config, s: State, p: Pid)
    requires Calm(s, p) && 0 !in s.locks
    ensures Next(c, At(s, p, TryLock({}, 1, 0, 0)), p, LockSlot, Holding(s, p, Won))
  {
    var m, t := At(s, p, TryLock({}, 1, 0, 0)), Holding(s, p, Won);
    assert SlotAt(1, 0, 0) == 0;
    assert t.procs == m.procs[p := m.procs[p].(pc := Won, slot := Some(0))];
    assert ScanStep(m, p, LockSlot, t);
  }

  lemma Clears(c: Config, s: State, p: Pid)
    ensures Next(c, Holding(s, p, Won), p, KeepNoLease, Holding(s, p, Cleared))
  {
    var m, t := Holding(s, p, Won), Holding(s, p, Cleared);
    assert t.procs == m.procs[p := m.procs[p].(pc := Cleared)];
    assert GrantStep(m, p, KeepNoLease, t);
  }

  function Announced(s: State, p: Pid): State {
    Holding(s, p, Marked).(active := s.active[0 := Starting(p)])
  }

  lemma Marks(c: Config, s: State, p: Pid)
    ensures Next(c, Holding(s, p, Cleared), p, MarkStarting, Announced(s, p))
  {
    var m, t := Holding(s, p, Cleared), Announced(s, p);
    assert t.procs == m.procs[p := m.procs[p].(pc := Marked)];
    assert GrantStep(m, p, MarkStarting, t);
  }

  lemma Leaves(c: Config, s: State, p: Pid)
    requires Calm(s, p)
    ensures Next(c, Announced(s, p), p, LeaveGranted, Seated(s, p, Ready))
  {
    var m, t := Announced(s, p), Seated(s, p, Ready);
    assert t.procs == m.procs[p := m.procs[p].(pc := Ready, inQueue := false)];
    assert GrantStep(m, p, LeaveGranted, t);
  }

  function Launched(s: State, p: Pid, k: Child): State {
    Seated(s, p, Spawned(k)).(kids := s.kids + {k}, tenant := s.tenant[k := 0], lost := s.lost - {k})
  }

  lemma Spawns(c: Config, s: State, p: Pid, k: Child)
    requires k !in s.kids
    ensures Next(c, Seated(s, p, Ready), p, Spawn(k), Launched(s, p, k))
  {
    var m, t := Seated(s, p, Ready), Launched(s, p, k);
    assert t.procs == m.procs[p := m.procs[p].(pc := Spawned(k))];
    assert JobStep(m, p, Spawn(k), t);
  }

  // ---- runs ----------------------------------------------------------------------------------

  lemma ToGate(c: Config, ss: seq<State>, es: seq<Event>, s: State, p: Pid) returns (tt: seq<State>, fs: seq<Event>)
    requires Ends(c, ss, es, s) && Calm(s, p)
    ensures Ends(c, tt, fs, At(s, p, Gate)) && tt[0] == ss[0]
    ensures OnlyProbesLose(ss, es) ==> OnlyProbesLose(tt, fs)
  {
    var s1, s2 := Put(s, p, Proc(0, false, None, None, Outside)), At(s, p, Entered);
    Starts(c, s, p);
    Extend(c, ss, es, s, p, StartRun(0), s1);
    tt, fs := ss + [s1], es + [Event(p, StartRun(0))];
    Goes(c, s, p);
    Extend(c, tt, fs, s1, p, Enter, s2);
    tt, fs := tt + [s2], fs + [Event(p, Enter)];
    Lists(c, s, p);
    Extend(c, tt, fs, s2, p, ListStale, At(s, p, Prune({}, {})));
    tt, fs := tt + [At(s, p, Prune({}, {}))], fs + [Event(p, ListStale)];
    Prunes(c, s, p);
    Extend(c, tt, fs, At(s, p, Prune({}, {})), p, PruneDone, At(s, p, Gate));
    tt, fs := tt + [At(s, p, Gate)], fs + [Event(p, PruneDone)];
  }

  lemma ToScan(c: Config, ss: seq<State>, es: seq<Event>, s: State, p: Pid) returns (tt: seq<State>, fs: seq<Event>)
    requires Ends(c, ss, es, s) && Calm(s, p)
    ensures Ends(c, tt, fs, At(s, p, Scan({}, 1, 0, 0))) && tt[0] == ss[0]
    ensures OnlyProbesLose(ss, es) ==> OnlyProbesLose(tt, fs)
  {
    tt, fs := ToGate(c, ss, es, s, p);
    Opens(c, s, p);
    Extend(c, tt, fs, At(s, p, Gate), p, GateOpen, At(s, p, List));
    tt, fs := tt + [At(s, p, List)], fs + [Event(p, GateOpen)];
    Scans(c, s, p);
    Extend(c, tt, fs, At(s, p, List), p, ListWaiters, At(s, p, Scan({}, 1, 0, 0)));
    tt, fs := tt + [At(s, p, Scan({}, 1, 0, 0))], fs + [Event(p, ListWaiters)];
  }

  // The metadata of the slot is absent, or left by a supervisor that is gone.
  lemma ToLock(c: Config, ss: seq<State>, es: seq<Event>, s: State, p: Pid) returns (tt: seq<State>, fs: seq<Event>)
    requires Ends(c, ss, es, s) && Calm(s, p)
    requires 0 in s.active ==> s.active[0].Starting? && s.active[0].sup !in s.procs && s.active[0].sup != p
    ensures Ends(c, tt, fs, At(if 0 in s.active then Cleaned(s) else s, p, TryLock({}, 1, 0, 0))) && tt[0] == ss[0]
    ensures OnlyProbesLose(ss, es) ==> OnlyProbesLose(tt, fs)
  {
    tt, fs := ToScan(c, ss, es, s, p);
    if 0 in s.active {
      var m, t := At(s, p, Probe({}, 1, 0, 0, s.active[0])), At(Cleaned(s), p, TryLock({}, 1, 0, 0));
      Finds(c, s, p);
      Extend(c, tt, fs, At(s, p, Scan({}, 1, 0, 0)), p, ReadPresent, m);
      tt, fs := tt + [m], fs + [Event(p, ReadPresent)];
      Reclaims(c, s, p, s.active[0]);
      Extend(c, tt, fs, m, p, ProbeDead, t);
      tt, fs := tt + [t], fs + [Event(p, ProbeDead)];
    } else {
      var t := At(s, p, TryLock({}, 1, 0, 0));
      Reads(c, s, p);
      Extend(c, tt, fs, At(s, p, Scan({}, 1, 0, 0)), p, ReadAbsent, t);
      tt, fs := tt + [t], fs + [Event(p, ReadAbsent)];
    }
  }

  lemma ToMarked(c: Config, ss: seq<State>, es: seq<Event>, s: State, p: Pid) returns (tt: seq<State>, fs: seq<Event>)
    requires Ends(c, ss, es, At(s, p, TryLock({}, 1, 0, 0))) && Calm(s, p) && 0 !in s.locks
    ensures Ends(c, tt, fs, Announced(s, p)) && tt[0] == ss[0]
    ensures OnlyProbesLose(ss, es) ==> OnlyProbesLose(tt, fs)
  {
    Wins(c, s, p);
    Extend(c, ss, es, At(s, p, TryLock({}, 1, 0, 0)), p, LockSlot, Holding(s, p, Won));
    tt, fs := ss + [Holding(s, p, Won)], es + [Event(p, LockSlot)];
    Clears(c, s, p);
    Extend(c, tt, fs, Holding(s, p, Won), p, KeepNoLease, Holding(s, p, Cleared));
    tt, fs := tt + [Holding(s, p, Cleared)], fs + [Event(p, KeepNoLease)];
    Marks(c, s, p);
    Extend(c, tt, fs, Holding(s, p, Cleared), p, MarkStarting, Announced(s, p));
    tt, fs := tt + [Announced(s, p)], fs + [Event(p, MarkStarting)];
  }

  lemma ToSpawned(c: Config, ss: seq<State>, es: seq<Event>, s: State, p: Pid, k: Child)
      returns (tt: seq<State>, fs: seq<Event>)
    requires Ends(c, ss, es, Announced(s, p)) && Calm(s, p) && k !in s.kids
    ensures Ends(c, tt, fs, Launched(s, p, k)) && tt[0] == ss[0]
    ensures OnlyProbesLose(ss, es) ==> OnlyProbesLose(tt, fs)
  {
    Leaves(c, s, p);
    Extend(c, ss, es, Announced(s, p), p, LeaveGranted, Seated(s, p, Ready));
    tt, fs := ss + [Seated(s, p, Ready)], es + [Event(p, LeaveGranted)];
    Spawns(c, s, p, k);
    Extend(c, tt, fs, Seated(s, p, Ready), p, Spawn(k), Launched(s, p, k));
    tt, fs := tt + [Launched(s, p, k)], fs + [Event(p, Spawn(k))];
  }

  // p alone, from its start to its spawned child.
  lemma Job(c: Config, ss: seq<State>, es: seq<Event>, s: State, p: Pid, k: Child)
      returns (tt: seq<State>, fs: seq<Event>)
    requires Ends(c, ss, es, s) && Calm(s, p) && k !in s.kids && 0 !in s.locks
    requires 0 in s.active ==> s.active[0].Starting? && s.active[0].sup !in s.procs && s.active[0].sup != p
    ensures Ends(c, tt, fs, Launched(if 0 in s.active then Cleaned(s) else s, p, k)) && tt[0] == ss[0]
    ensures OnlyProbesLose(ss, es) ==> OnlyProbesLose(tt, fs)
  {
    var m := if 0 in s.active then Cleaned(s) else s;
    tt, fs := ToLock(c, ss, es, s, p);
    tt, fs := ToMarked(c, tt, fs, m, p);
    tt, fs := ToSpawned(c, tt, fs, m, p, k);
  }

  const Fresh := State(map[], None, map[], map[], map[], {}, false, 1, {}, map[], {})

  const First: State := Launched(Fresh, 0, 10)

  lemma FirstCrashes(c: Config)
    ensures 0 in First.procs && Next(c, First, 0, Crash, AfterCrash(First, 0))
  {
  }

  // Two live children under a capacity of one.
  lemma LossesHappen(c: Config) returns (ss: seq<State>, es: seq<Event>)
    requires c.maxQueue >= 1
    ensures Run(c, ss, es)
    ensures ss[|ss| - 1].capacity == 1 && |ss[|ss| - 1].kids| == 2
  {
    ss, es := Job(c, [Fresh], [], Fresh, 0, 10);
    FirstCrashes(c);
    var orphaned := AfterCrash(First, 0);
    Extend(c, ss, es, First, 0, Crash, orphaned);
    ss, es := ss + [orphaned], es + [Event(0, Crash)];
    ss, es := Job(c, ss, es, orphaned, 1, 11);
    assert ss[|ss| - 1].kids == {10, 11};
  }

  // ---- a stale probe -------------------------------------------------------------------------

  // Process 0 has won the slot and not yet spawned.
  const Seat: State := Seated(Fresh, 0, Ready)

  // It spawned its child and recorded it.
  const Recording: State := First.(procs := First.procs[0 := Proc(0, false, None, Some(0), Attached(10))],
                                   active := First.active[0 := Running(0, 10)])

  // It was killed; its child lives on.
  const Orphaned: State :=
    State(map[], None, map[], map[0 := Running(0, 10)], map[], {}, false, 1, {10}, map[10 := 0], {})

  // Process 1 has read the metadata of process 0 before the spawn.
  function Reader(s: State): State {
    At(s, 1, Probe({}, 1, 0, 0, Starting(0)))
  }

  lemma Sits(c: Config, ss: seq<State>, es: seq<Event>) returns (tt: seq<State>, fs: seq<Event>)
    requires Ends(c, ss, es, Fresh)
    ensures Ends(c, tt, fs, Seat) && tt[0] == ss[0]
    ensures OnlyProbesLose(ss, es) ==> OnlyProbesLose(tt, fs)
  {
    tt, fs := ToLock(c, ss, es, Fresh, 0);
    tt, fs := ToMarked(c, tt, fs, Fresh, 0);
    Leaves(c, Fresh, 0);
    Extend(c, tt, fs, Announced(Fresh, 0), 0, LeaveGranted, Seat);
    tt, fs := tt + [Seat], fs + [Event(0, LeaveGranted)];
  }

  lemma ReadsEarly(c: Config, ss: seq<State>, es: seq<Event>) returns (tt: seq<State>, fs: seq<Event>)
    requires Ends(c, ss, es, Seat)
    ensures Ends(c, tt, fs, Reader(Seat)) && tt[0] == ss[0]
    ensures OnlyProbesLose(ss, es) ==> OnlyProbesLose(tt, fs)
  {
    tt, fs := ToScan(c, ss, es, Seat, 1);
    Finds(c, Seat, 1);
    Extend(c, tt, fs, At(Seat, 1, Scan({}, 1, 0, 0)), 1, ReadPresent, Reader(Seat));
    tt, fs := tt + [Reader(Seat)], fs + [Event(1, ReadPresent)];
  }

  // Process 0 goes on and is killed before process 1 probes.
  lemma RunsBeside(c: Config, ss: seq<State>, es: seq<Event>) returns (tt: seq<State>, fs: seq<Event>)
    requires Ends(c, ss, es, Reader(Seat))
    ensures Ends(c, tt, fs, Reader(Orphaned)) && tt[0] == ss[0]
    ensures OnlyProbesLose(ss, es) ==> OnlyProbesLose(tt, fs)
  {
    SpawnsBeside(c);
    Extend(c, ss, es, Reader(Seat), 0, Spawn(10), Reader(First));
    tt, fs := ss + [Reader(First)], es + [Event(0, Spawn(10))];
    RecordsBeside(c);
    Extend(c, tt, fs, Reader(First), 0, MarkRunning, Reader(Recording));
    tt, fs := tt + [Reader(Recording)], fs + [Event(0, MarkRunning)];
    DiesBeside(c);
    Extend(c, tt, fs, Reader(Recording), 0, Crash, Reader(Orphaned));
    tt, fs := tt + [Reader(Orphaned)], fs + [Event(0, Crash)];
  }

  // Process 1 finds process 0 dead ...
  lemma FindsDead(c: Config, ss: seq<State>, es: seq<Event>) returns (tt: seq<State>, fs: seq<Event>)
    requires Ends(c, ss, es, Reader(Orphaned))
    ensures Ends(c, tt, fs, At(Cleaned(Orphaned), 1, TryLock({}, 1, 0, 0))) && tt[0] == ss[0]
    ensures OnlyProbesLose(ss, es) ==> OnlyProbesLose(tt, fs)
  {
    var taken := At(Cleaned(Orphaned), 1, TryLock({}, 1, 0, 0));
    Reclaims(c, Orphaned, 1, Starting(0));
    Extend(c, ss, es, Reader(Orphaned), 1, ProbeDead, taken);
    tt, fs := ss + [taken], es + [Event(1, ProbeDead)];
  }

  // ... and takes its slot.
  lemma TakesOver(c: Config, ss: seq<State>, es: seq<Event>, s: State) returns (tt: seq<State>, fs: seq<Event>)
    requires Ends(c, ss, es, At(s, 1, TryLock({}, 1, 0, 0))) && Calm(s, 1) && 0 !in s.locks && 11 !in s.kids
    ensures Ends(c, tt, fs, Launched(s, 1, 11)) && tt[0] == ss[0]
    ensures OnlyProbesLose(ss, es) ==> OnlyProbesLose(tt, fs)
  {
    tt, fs := ToMarked(c, ss, es, s, 1);
    tt, fs := ToSpawned(c, tt, fs, s, 1, 11);
  }

  lemma SpawnsBeside(c: Config)
    ensures Next(c, Reader(Seat), 0, Spawn(10), Reader(First))
  {
    var m, t := Reader(Seat), Reader(First);
    assert t.procs == m.procs[0 := m.procs[0].(pc := Spawned(10))];
    assert JobStep(m, 0, Spawn(10), t);
  }

  lemma RecordsBeside(c: Config)
    ensures Next(c, Reader(First), 0, MarkRunning, Reader(Recording))
  {
    var m, t := Reader(First), Reader(Recording);
    assert t.procs == m.procs[0 := m.procs[0].(pc := Attached(10))];
    assert JobStep(m, 0, MarkRunning, t);
  }

  lemma DiesBeside(c: Config)
    ensures Next(c, Reader(Recording), 0, Crash, Reader(Orphaned)) && !Loses(Reader(Recording), Event(0, Crash))
  {
    var m, t := Reader(Recording), Reader(Orphaned);
    assert Drops(m.procs, 0, t.procs);
    assert Drops(m.locks, 0, t.locks);
    DropsOnce(m.procs, 0, t.procs);
    DropsOnce(m.locks, 0, t.locks);
    assert t == AfterCrash(m, 0);
  }

  lemma DropsOnce<K(!new), V>(m: map<K, V>, k: K, r: map<K, V>)
    requires Drops(m, k, r)
    ensures r == Without(m, k)
  {
    var w := Without(m, k);
    assert r.Keys == w.Keys && forall j :: j in r ==> r[j] == w[j];
  }

  lemma {:induction false} SomeLoss(ss: seq<State>, es: seq<Event>, n: nat) returns (i: nat)
    requires |ss| == |es| + 1 && n <= |es| && Losses(ss, es, n) > 0
    ensures i < n && Loses(ss[i], es[i])
  {
    if Loses(ss[n - 1], es[n - 1]) {
      i := n - 1;
    } else {
      i := SomeLoss(ss, es, n - 1);
    }
  }

  lemma StaleRun(c: Config) returns (ss: seq<State>, es: seq<Event>)
    requires c.maxQueue >= 1
    ensures Run(c, ss, es) && OnlyProbesLose(ss, es)
    ensures ss[|ss| - 1].capacity == 1 && |ss[|ss| - 1].kids| == 2
  {
    ss, es := Sits(c, [Fresh], []);
    ss, es := ReadsEarly(c, ss, es);
    ss, es := RunsBeside(c, ss, es);
    ss, es := FindsDead(c, ss, es);
    ss, es := TakesOver(c, ss, es, Cleaned(Orphaned));
    assert ss[|ss| - 1].kids == {10, 11};
  }

  // Two live children under a capacity of one, and the only losing events are probes of
  // metadata that changed after it was read; event i is one.
  lemma StaleProbesLose(c: Config) returns (ss: seq<State>, es: seq<Event>, i: nat)
    requires c.maxQueue >= 1
    ensures Run(c, ss, es)
    ensures ss[|ss| - 1].capacity == 1 && |ss[|ss| - 1].kids| == 2
    ensures OnlyProbesLose(ss, es) && i < |es| && Loses(ss[i], es[i])
  {
    ss, es := StaleRun(c);
    ConcurrencyBound(c, ss, es, |es|);
    i := SomeLoss(ss, es, |es|);
  }
}
