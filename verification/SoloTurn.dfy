// The whole critical section of acquire as a method (RuntimeFiles.Runtime.TakeTurn) is a
// run of single steps (Protocol) in which nobody else acts.
module SoloTurns {
  import opened Wrappers
  import opened Protocol
  import opened ProtocolInvariant
  import opened ProtocolRuns
  import opened RuntimeFiles
  import opened Occupancy
  import opened SoloScan

  // Steps of p alone lead from s to t.
  ghost predicate Reaches(c: Config, p: Pid, s: State, t: State) {
    exists ss, es :: SoloRun(c, p, ss, es) && ss[0] == s && ss[|ss| - 1] == t
  }

  lemma Step(c: Config, p: Pid, s: State, a: Action, t: State)
    requires p in s.procs && (PollStep(c, s, p, a, t) || PermitStep(s, p, a, t))
    ensures Reaches(c, p, s, t)
  {
    var ss, es := [s, t], [Event(p, a)];
    assert StepAt(c, ss, es, 0);
    assert SoloRun(c, p, ss, es);
  }

  lemma Trans(c: Config, p: Pid, s: State, t: State, u: State)
    requires Reaches(c, p, s, t) && Reaches(c, p, t, u)
    ensures Reaches(c, p, s, u)
  {
    var ss, es :| SoloRun(c, p, ss, es) && ss[0] == s && ss[|ss| - 1] == t;
    var tt, fs :| SoloRun(c, p, tt, fs) && tt[0] == t && tt[|tt| - 1] == u;
    Join(c, p, ss, es, tt, fs);
    var all := ss + tt[1..];
    assert all[0] == s && all[|all| - 1] == u;
  }

  lemma PutTwice(s: State, p: Pid, a: Proc, b: Proc)
    ensures Put(Put(s, p, a), p, b) == Put(s, p, b)
  {
    assert s.procs[p := a][p := b] == s.procs[p := b];
  }

  // p at another point, everything else as it was.
  function Moved(s: State, p: Pid, pc: Pc): State
    requires p in s.procs
  {
    Put(s, p, s.procs[p].(pc := pc))
  }

  // ---- pruning ------------------------------------------------------------------------------

  // Of the leases in todo the locked ones are kept, and all others.
  ghost predicate Pruned(before: map<Name, Lease>, todo: set<Name>, after: map<Name, Lease>) {
    && (forall n :: n in after <==> n in before && (n in todo ==> before[n].lock.Some?))
    && (forall n :: n in after ==> after[n] == before[n])
  }

  lemma PrunedAll(before: map<Name, Lease>, after: map<Name, Lease>)
    requires Pruned(before, before.Keys, after)
    ensures after == LiveLeases(before)
  {
    assert KeepsLive(before, after) && KeepsLive(before, LiveLeases(before));
  }

  lemma PruneOne(c: Config, s: State, p: Pid, all: set<Name>, todo: set<Name>, n: Name) returns (t: State)
    requires p in s.procs && s.procs[p].pc == Prune(all, todo) && n in todo && n in s.leases
    ensures Reaches(c, p, s, t) && Pruned(s.leases, {n}, t.leases)
    ensures t == Moved(s, p, Prune(all, todo - {n})).(leases := t.leases)
  {
    if s.leases[n].lock.Some? {
      t := Moved(s, p, Prune(all, todo - {n}));
      assert PruneStep(s, p, PruneSkip(n), t);
      Step(c, p, s, PruneSkip(n), t);
    } else {
      var m := Moved(s, p, PruneHit(all, todo - {n}, n));
      assert PruneStep(s, p, PruneTake(n), m);
      Step(c, p, s, PruneTake(n), m);
      t := Moved(m, p, Prune(all, todo - {n})).(leases := Without(m.leases, n));
      assert PruneStep(m, p, PruneRemove, t);
      Step(c, p, m, PruneRemove, t);
      Trans(c, p, s, m, t);
      PutTwice(s, p, m.procs[p], t.procs[p]);
    }
  }

  lemma {:induction false} PruneFrom(c: Config, s: State, p: Pid, all: set<Name>, todo: set<Name>) returns (t: State)
    requires p in s.procs && s.procs[p].pc == Prune(all, todo) && todo <= s.leases.Keys
    ensures Reaches(c, p, s, t) && Pruned(s.leases, todo, t.leases)
    ensures t == Moved(s, p, Gate).(leases := t.leases)
    decreases |todo|
  {
    if todo == {} {
      t := Moved(s, p, Gate);
      assert PruneStep(s, p, PruneDone, t);
      Step(c, p, s, PruneDone, t);
    } else {
      var n :| n in todo;
      var m := PruneOne(c, s, p, all, todo, n);
      t := PruneFrom(c, m, p, all, todo - {n});
      Trans(c, p, s, m, t);
      PutTwice(s, p, m.procs[p], t.procs[p]);
      PrunedThen(s.leases, n, m.leases, todo, t.leases);
    }
  }

  lemma PrunedThen(before: map<Name, Lease>, n: Name, mid: map<Name, Lease>, todo: set<Name>, after: map<Name, Lease>)
    requires n in todo && Pruned(before, {n}, mid) && Pruned(mid, todo - {n}, after)
    ensures Pruned(before, todo, after)
  {
  }

  // From the queue lock to the drain check.
  lemma ToGate(c: Config, s: State, p: Pid) returns (t: State)
    requires p in s.procs && s.procs[p].pc.Outside? && s.queue == None
    ensures Reaches(c, p, s, t)
    ensures t == Put(s, p, s.procs[p].(pc := Gate, inQueue := true)).(queue := Some(p), leases := LiveLeases(s.leases))
  {
    var all := s.leases.Keys;
    var a := Put(s, p, s.procs[p].(pc := Entered, inQueue := true)).(queue := Some(p));
    assert PruneStep(s, p, Enter, a);
    Step(c, p, s, Enter, a);
    var b := Moved(a, p, Prune(all, all));
    assert PruneStep(a, p, ListStale, b);
    Step(c, p, a, ListStale, b);
    Trans(c, p, s, a, b);
    t := PruneFrom(c, b, p, all, all);
    Trans(c, p, s, b, t);
    PrunedAll(s.leases, t.leases);
    PutTwice(s, p, a.procs[p], b.procs[p]);
    PutTwice(s, p, b.procs[p], t.procs[p]);
  }

  // ---- the gate and the listing -----------------------------------------------------------------

  lemma Turned(c: Config, s: State, p: Pid) returns (t: State)
    requires p in s.procs && s.procs[p].pc.Gate? && s.drain
    ensures Reaches(c, p, s, t) && t == Put(s, p, s.procs[p].(pc := Quit, inQueue := false)).(queue := None)
  {
    t := Put(s, p, s.procs[p].(pc := Quit, inQueue := false)).(queue := None);
    assert GateStep(s, p, GateShut, t);
    Step(c, p, s, GateShut, t);
  }

  lemma Listed(c: Config, s: State, p: Pid) returns (t: State)
    requires p in s.procs && s.procs[p].pc.Gate? && !s.drain && s.capacity > 0
    ensures Reaches(c, p, s, t)
    ensures t == Moved(s, p, if MayTry(s.procs[p].lease, s.leases.Keys)
                             then Scan(s.leases.Keys, s.capacity, p % s.capacity, 0) else Busy(s.leases.Keys))
  {
    var m := Moved(s, p, List);
    assert GateStep(s, p, GateOpen, m);
    Step(c, p, s, GateOpen, m);
    t := Moved(m, p, if MayTry(s.procs[p].lease, s.leases.Keys)
                     then Scan(s.leases.Keys, s.capacity, p % s.capacity, 0) else Busy(s.leases.Keys));
    assert GateStep(m, p, ListWaiters, t);
    Step(c, p, m, ListWaiters, t);
    Trans(c, p, s, m, t);
    PutTwice(s, p, m.procs[p], t.procs[p]);
  }

  // ---- a won slot --------------------------------------------------------------------------------

  lemma UnlistsOne(c: Config, s: State, p: Pid, n: Name) returns (t: State)
    requires p in s.procs && s.procs[p].pc.Won? && s.procs[p].lease == Some(n) && n in s.leases
    ensures Reaches(c, p, s, t)
    ensures t == Put(s, p, s.procs[p].(pc := Cleared, lease := None)).(leases := s.leases - {n})
  {
    var m := Put(s, p, s.procs[p].(pc := Unlisting(n), lease := None)).(leases := FreedLease(s.leases, n));
    FreesOne(c, s, p, n, m);
    t := Moved(m, p, Cleared).(leases := Without(m.leases, n));
    ErasesOne(c, m, p, n, t);
    Trans(c, p, s, m, t);
    WithoutIs(m.leases, n);
    PutTwice(s, p, m.procs[p], t.procs[p]);
  }

  lemma FreesOne(c: Config, s: State, p: Pid, n: Name, t: State)
    requires p in s.procs && s.procs[p].pc.Won? && s.procs[p].lease == Some(n)
    requires t == Put(s, p, s.procs[p].(pc := Unlisting(n), lease := None)).(leases := FreedLease(s.leases, n))
    ensures Reaches(c, p, s, t)
  {
    assert GrantStep(s, p, FreeLease, t);
    Step(c, p, s, FreeLease, t);
  }

  lemma ErasesOne(c: Config, s: State, p: Pid, n: Name, t: State)
    requires p in s.procs && s.procs[p].pc == Unlisting(n)
    requires t == Moved(s, p, Cleared).(leases := Without(s.leases, n))
    ensures Reaches(c, p, s, t)
  {
    assert GrantStep(s, p, EraseLease, t);
    Step(c, p, s, EraseLease, t);
  }

  // The lease goes.
  lemma Unlists(c: Config, s: State, p: Pid) returns (t: State)
    requires p in s.procs && s.procs[p].pc.Won? && (s.procs[p].lease.Some? ==> s.procs[p].lease.value in s.leases)
    ensures Reaches(c, p, s, t)
    ensures t == Put(s, p, s.procs[p].(pc := Cleared, lease := None)).(
                   leases := match s.procs[p].lease case None => s.leases case Some(n) => s.leases - {n})
  {
    if s.procs[p].lease.Some? {
      t := UnlistsOne(c, s, p, s.procs[p].lease.value);
    } else {
      t := Moved(s, p, Cleared);
      assert GrantStep(s, p, KeepNoLease, t);
      Step(c, p, s, KeepNoLease, t);
    }
  }

  lemma Marks(c: Config, s: State, p: Pid, x: Slot) returns (t: State)
    requires p in s.procs && s.procs[p].pc.Cleared? && s.procs[p].slot == Some(x)
    ensures Reaches(c, p, s, t)
    ensures t == Put(s, p, s.procs[p].(pc := Ready, inQueue := false)).(
                   queue := None, active := s.active[x := Starting(p)])
  {
    var m := Moved(s, p, Marked).(active := s.active[x := Starting(p)]);
    assert GrantStep(s, p, MarkStarting, m);
    Step(c, p, s, MarkStarting, m);
    t := Put(m, p, m.procs[p].(pc := Ready, inQueue := false)).(queue := None);
    assert GrantStep(m, p, LeaveGranted, t);
    Step(c, p, m, LeaveGranted, t);
    Trans(c, p, s, m, t);
    PutTwice(s, p, m.procs[p], t.procs[p]);
  }

  lemma Unmarks(c: Config, s: State, p: Pid, x: Slot, luck: Luck) returns (t: State)
    requires p in s.procs && s.procs[p].pc.Closing? && s.procs[p].slot == Some(x)
    ensures Reaches(c, p, s, t)
    ensures t == Moved(s, p, Unmarked).(active := if luck.unmarked then s.active - {x} else s.active)
  {
    t := Moved(s, p, Unmarked).(active := if luck.unmarked then Without(s.active, x) else s.active);
    var a := if luck.unmarked then Unmark else UnmarkFails;
    assert DropStep(s, p, a, t);
    Step(c, p, s, a, t);
    WithoutIs(s.active, x);
  }

  lemma Unlocks(c: Config, s: State, p: Pid, x: Slot) returns (t: State)
    requires p in s.procs && s.procs[p].pc.Unmarked? && s.procs[p].slot == Some(x) && s.procs[p].inQueue
    ensures Reaches(c, p, s, t)
    ensures t == Put(s, p, s.procs[p].(pc := Quit, inQueue := false, slot := None)).(
                   queue := None, locks := s.locks - {x})
  {
    t := Put(s, p, s.procs[p].(pc := Quit, inQueue := false, slot := None)).(
           queue := None, locks := Without(s.locks, x));
    assert DropStep(s, p, UnlockSlot, t);
    Step(c, p, s, UnlockSlot, t);
    WithoutIs(s.locks, x);
  }

  // The slot is given up again.
  lemma GivesUp(c: Config, s: State, p: Pid, x: Slot, luck: Luck) returns (t: State)
    requires p in s.procs && s.procs[p].pc.Closing? && s.procs[p].slot == Some(x) && s.procs[p].inQueue
    ensures Reaches(c, p, s, t)
    ensures t == Put(s, p, s.procs[p].(pc := Quit, inQueue := false, slot := None)).(
                   queue := None, locks := s.locks - {x}, active := if luck.unmarked then s.active - {x} else s.active)
  {
    var m := Unmarks(c, s, p, x, luck);
    t := Unlocks(c, m, p, x);
    Trans(c, p, s, m, t);
    PutTwice(s, p, m.procs[p], t.procs[p]);
  }

  lemma MarkFails(c: Config, s: State, p: Pid, x: Slot, luck: Luck) returns (t: State)
    requires p in s.procs && s.procs[p].pc.Cleared? && s.procs[p].slot == Some(x) && s.procs[p].inQueue
    requires luck.mark != Written && x !in s.active
    ensures Reaches(c, p, s, t)
    ensures t == Put(s, p, s.procs[p].(pc := Quit, inQueue := false, slot := None)).(
                   queue := None, locks := s.locks - {x}, active := MarkedAfter(s.active, p, x, luck))
  {
    var written := luck.mark == FailedAfter;
    var m := Moved(s, p, Closing).(active := if written then s.active[x := Starting(p)] else s.active);
    assert GrantStep(s, p, MarkStartingFails(written), m);
    Step(c, p, s, MarkStartingFails(written), m);
    t := GivesUp(c, m, p, x, luck);
    Trans(c, p, s, m, t);
    PutTwice(s, p, m.procs[p], t.procs[p]);
    assert t.active == MarkedAfter(s.active, p, x, luck);
  }

  // ---- no slot -----------------------------------------------------------------------------------

  // Where the queue phase of a poll ends.
  ghost predicate QueueEnds(c: Config, s: State, p: Pid, newName: Name, luck: Luck, t: State)
    requires p in s.procs
  {
    var pr := s.procs[p];
    && p in t.procs && t.queue == None && t.active == s.active && t.locks == s.locks
    && if pr.lease.Some? then t.procs[p].pc.Polled? && t.procs[p].lease == pr.lease && t.leases == s.leases
       else if || |s.leases| >= c.maxQueue || |OwnerNames(s.leases, pr.owner)| >= c.maxPerOwner
               || luck.create == NotCreated
       then t.procs[p].pc.Quit? && t.procs[p].lease == None && t.leases == s.leases
       else if luck.create == NotFilled
       then t.procs[p].pc.Quit? && t.procs[p].lease == None && t.leases == s.leases[newName := Lease(None, None)]
       else t.procs[p].pc.Polled? && t.procs[p].lease == Some(newName)
            && t.leases == s.leases[newName := Lease(Some(p), Some(pr.owner))]
  }

  lemma Leaves(c: Config, s: State, p: Pid) returns (t: State)
    requires p in s.procs && s.procs[p].pc.Leave?
    ensures Reaches(c, p, s, t) && t == Put(s, p, s.procs[p].(pc := Polled, inQueue := false)).(queue := None)
  {
    t := Put(s, p, s.procs[p].(pc := Polled, inQueue := false)).(queue := None);
    assert WaitStep(s, p, LeaveQueued, t);
    Step(c, p, s, LeaveQueued, t);
  }

  lemma Stays(c: Config, s: State, p: Pid, newName: Name, luck: Luck) returns (t: State)
    requires p in s.procs && s.procs[p].pc.Busy? && s.procs[p].lease.Some?
    ensures Reaches(c, p, s, t) && QueueEnds(c, s, p, newName, luck, t)
  {
    var m := Moved(s, p, Leave);
    assert AdmitStep(c, s, p, StayQueued, m);
    Step(c, p, s, StayQueued, m);
    t := Leaves(c, m, p);
    Trans(c, p, s, m, t);
  }

  lemma Rejects(c: Config, s: State, p: Pid, newName: Name, luck: Luck) returns (t: State)
    requires p in s.procs && s.procs[p].pc == Busy(s.leases.Keys) && s.procs[p].lease == None
    requires |s.leases| >= c.maxQueue || |OwnerNames(s.leases, s.procs[p].owner)| >= c.maxPerOwner
    ensures Reaches(c, p, s, t) && QueueEnds(c, s, p, newName, luck, t)
  {
    var names := OwnerNames(s.leases, s.procs[p].owner);
    assert s.leases.Keys * names == names && |s.leases.Keys| == |s.leases|;
    t := Put(s, p, s.procs[p].(pc := Quit, inQueue := false)).(queue := None);
    assert AdmitStep(c, s, p, Reject, t);
    Step(c, p, s, Reject, t);
  }

  lemma Admits(c: Config, s: State, p: Pid) returns (t: State)
    requires p in s.procs && s.procs[p].pc == Busy(s.leases.Keys) && s.procs[p].lease == None
    requires |s.leases| < c.maxQueue && |OwnerNames(s.leases, s.procs[p].owner)| < c.maxPerOwner
    ensures Reaches(c, p, s, t) && t == Moved(s, p, Admitted(s.leases.Keys))
  {
    var names := OwnerNames(s.leases, s.procs[p].owner);
    assert s.leases.Keys * names == names && |s.leases.Keys| == |s.leases|;
    t := Moved(s, p, Admitted(s.leases.Keys));
    assert AdmitStep(c, s, p, Admit, t);
    Step(c, p, s, Admit, t);
  }

  // The lease file, locked and empty.
  lemma Creates(c: Config, s: State, p: Pid, newName: Name) returns (t: State)
    requires p in s.procs && s.procs[p].pc.Admitted? && newName !in s.used
    ensures Reaches(c, p, s, t)
    ensures t == Put(s, p, s.procs[p].(pc := Filling, lease := Some(newName))).(
                   leases := s.leases[newName := Lease(Some(p), None)], used := s.used + {newName})
  {
    var m := Moved(s, p, Created(newName)).(
               leases := s.leases[newName := Lease(None, None)], used := s.used + {newName});
    assert LeaseStep(s, p, Create(newName), m);
    Step(c, p, s, Create(newName), m);
    t := Put(m, p, m.procs[p].(pc := Filling, lease := Some(newName))).(
           leases := m.leases[newName := Lease(Some(p), None)]);
    assert LeaseStep(m, p, LockLease, t);
    Step(c, p, m, LockLease, t);
    Trans(c, p, s, m, t);
    assert t.leases == s.leases[newName := Lease(Some(p), None)];
    PutTwice(s, p, m.procs[p], t.procs[p]);
  }

  lemma Fills(c: Config, s: State, p: Pid, n: Name, luck: Luck) returns (t: State)
    requires p in s.procs && s.procs[p].pc.Filling? && s.procs[p].lease == Some(n)
    requires n in s.leases && s.leases[n] == Lease(Some(p), None) && luck.create != NotCreated
    ensures Reaches(c, p, s, t) && p in t.procs && t.queue == None && t.active == s.active && t.locks == s.locks
    ensures if luck.create == Filled
            then t.procs[p].pc.Polled? && t.procs[p].lease == Some(n)
                 && t.leases == s.leases[n := Lease(Some(p), Some(s.procs[p].owner))]
            else t.procs[p].pc.Quit? && t.procs[p].lease == None && t.leases == s.leases[n := Lease(None, None)]
  {
    if luck.create == Filled {
      var m := Moved(s, p, Leave).(leases := s.leases[n := Lease(Some(p), Some(s.procs[p].owner))]);
      assert LeaseStep(s, p, FillLease, m);
      Step(c, p, s, FillLease, m);
      t := Leaves(c, m, p);
      Trans(c, p, s, m, t);
    } else {
      t := Put(s, p, s.procs[p].(pc := Quit, inQueue := false, lease := None)).(
             queue := None, leases := FreedLease(s.leases, n));
      assert LeaseStep(s, p, FillFails, t);
      Step(c, p, s, FillFails, t);
    }
  }

  lemma Fails(c: Config, s: State, p: Pid) returns (t: State)
    requires p in s.procs && s.procs[p].pc.Admitted?
    ensures Reaches(c, p, s, t) && t == Put(s, p, s.procs[p].(pc := Quit, inQueue := false)).(queue := None)
  {
    t := Put(s, p, s.procs[p].(pc := Quit, inQueue := false)).(queue := None);
    assert GateStep(s, p, FailOut, t);
    Step(c, p, s, FailOut, t);
  }

  lemma Queues(c: Config, s: State, p: Pid, newName: Name, luck: Luck) returns (t: State)
    requires p in s.procs && s.procs[p].pc == Busy(s.leases.Keys) && newName !in s.used
    ensures Reaches(c, p, s, t) && QueueEnds(c, s, p, newName, luck, t)
  {
    if s.procs[p].lease.Some? {
      t := Stays(c, s, p, newName, luck);
    } else if |s.leases| >= c.maxQueue || |OwnerNames(s.leases, s.procs[p].owner)| >= c.maxPerOwner {
      t := Rejects(c, s, p, newName, luck);
    } else {
      var m := Admits(c, s, p);
      if luck.create == NotCreated {
        t := Fails(c, m, p);
      } else {
        var n := Creates(c, m, p, newName);
        t := Fills(c, n, p, newName, luck);
        Trans(c, p, m, n, t);
        UpdateTwice(s.leases, newName, Lease(Some(p), None), Lease(Some(p), Some(s.procs[p].owner)));
        UpdateTwice(s.leases, newName, Lease(Some(p), None), Lease(None, None));
      }
      Trans(c, p, s, m, t);
    }
  }

  lemma UpdateTwice(m: map<Name, Lease>, n: Name, a: Lease, b: Lease)
    ensures m[n := a][n := b] == m[n := b]
  {
  }

  // ---- the whole turn ----------------------------------------------------------------------------

  // Where a won slot leads: a permit, or, when it cannot be marked, an error.
  lemma WonEnds(c: Config, s: State, p: Pid, x: Slot, luck: Luck) returns (t: State)
    requires p in s.procs && s.procs[p].pc.Won? && s.procs[p].slot == Some(x) && s.procs[p].inQueue && x !in s.active
    requires s.procs[p].lease.Some? ==> s.procs[p].lease.value in s.leases
    ensures Reaches(c, p, s, t) && p in t.procs && t.queue == None && t.procs[p].lease == None
    ensures t.leases == match s.procs[p].lease case None => s.leases case Some(n) => s.leases - {n}
    ensures t.active == MarkedAfter(s.active, p, x, luck)
    ensures if luck.mark == Written then t.procs[p].pc.Ready? && t.procs[p].slot == Some(x) && t.locks == s.locks
            else t.procs[p].pc.Quit? && t.locks == s.locks - {x}
  {
    var m := Unlists(c, s, p);
    if luck.mark == Written {
      t := Marks(c, m, p, x);
    } else {
      t := MarkFails(c, m, p, x, luck);
    }
    Trans(c, p, s, m, t);
  }

  // The state in which the scan or the queueing begins.
  function AtList(s: State, p: Pid, live: map<Name, Lease>): State
    requires p in s.procs && s.capacity > 0
  {
    var pc := if MayTry(s.procs[p].lease, live.Keys) then Scan(live.Keys, s.capacity, p % s.capacity, 0)
              else Busy(live.Keys);
    Put(s, p, s.procs[p].(pc := pc, inQueue := true)).(queue := Some(p), leases := live)
  }

  lemma ToList(c: Config, s: State, p: Pid)
    requires p in s.procs && s.procs[p].pc.Outside? && s.queue == None && !s.drain && s.capacity > 0
    ensures Reaches(c, p, s, AtList(s, p, LiveLeases(s.leases)))
  {
    var g := ToGate(c, s, p);
    var l := Listed(c, g, p);
    Trans(c, p, s, g, l);
    PutTwice(s, p, g.procs[p], l.procs[p]);
  }

  // A process about to poll, its lease in place.
  ghost predicate Waits(s: State, p: Pid) {
    && p in s.procs && s.procs[p].pc.Outside? && s.queue == None && 1 <= s.capacity <= 2
    && (s.procs[p].lease.Some? ==>
          s.procs[p].lease.value in s.leases
          && s.leases[s.procs[p].lease.value] == Lease(Some(p), Some(s.procs[p].owner)))
  }

  // What TakeTurn says of the poll and of the files, said of a state.
  ghost predicate TurnEnds(c: Config, s: State, p: Pid, newName: Name, alive: nat -> bool, luck: Luck, r: Poll,
                           t: State)
    requires Waits(s, p)
  {
    var lease, owner := s.procs[p].lease, s.procs[p].owner;
    && r == Outcome(c, s.leases, s.active, s.locks, s.drain, s.capacity, p, owner, lease, newName, alive, luck)
    && p in t.procs && t.procs[p].lease == LeaseHeld(r, lease, luck) && t.queue == None
    && t.leases == LeasesAfter(s.leases, p, owner, lease, newName, r,
                               SlotWon(s.leases, s.active, s.locks, s.drain, s.capacity, p, lease, alive, luck), luck)
    && t.active == ActiveAfter(s.leases, s.active, s.locks, s.drain, s.capacity, p, lease, alive, luck)
    && match r
       case Granted(x) => t.procs[p].pc.Ready? && t.procs[p].slot == Some(x) && t.locks == s.locks[x := p]
       case Waiting(_) => t.procs[p].pc.Polled? && t.locks == s.locks
       case Denied(_) => t.procs[p].pc.Quit? && t.locks == s.locks
       case Failed => t.procs[p].pc.Quit? && t.locks == s.locks
  }

  lemma TurnFails(c: Config, s: State, p: Pid, newName: Name, alive: nat -> bool, luck: Luck) returns (t: State)
    requires Waits(s, p) && !luck.locked
    ensures Reaches(c, p, s, t) && TurnEnds(c, s, p, newName, alive, luck, Failed, t)
  {
    t := Moved(s, p, Quit);
    assert WaitStep(s, p, EnterFails, t);
    Step(c, p, s, EnterFails, t);
  }

  lemma TurnDrained(c: Config, s: State, p: Pid, newName: Name, alive: nat -> bool, luck: Luck) returns (t: State)
    requires Waits(s, p) && luck.locked && s.drain
    ensures Reaches(c, p, s, t) && TurnEnds(c, s, p, newName, alive, luck, Denied(Draining), t)
  {
    var g := ToGate(c, s, p);
    t := Turned(c, g, p);
    Trans(c, p, s, g, t);
  }

  lemma QueueIsTurn(c: Config, s: State, p: Pid, newName: Name, alive: nat -> bool, luck: Luck, m: State, t: State)
      returns (r: Poll)
    requires Waits(s, p) && luck.locked && !s.drain
    requires SlotWon(s.leases, s.active, s.locks, s.drain, s.capacity, p, s.procs[p].lease, alive, luck) == None
    requires p in m.procs && m.procs[p].lease == s.procs[p].lease && m.procs[p].owner == s.procs[p].owner
    requires m.leases == LiveLeases(s.leases) && m.locks == s.locks
    requires m.active == ActiveAfter(s.leases, s.active, s.locks, s.drain, s.capacity, p, s.procs[p].lease, alive, luck)
    requires QueueEnds(c, m, p, newName, luck, t)
    ensures TurnEnds(c, s, p, newName, alive, luck, r, t)
  {
    var lease, owner := s.procs[p].lease, s.procs[p].owner;
    r := Outcome(c, s.leases, s.active, s.locks, s.drain, s.capacity, p, owner, lease, newName, alive, luck);
    if lease.Some? {
      var live := LiveLeases(s.leases);
      assert live[lease.value := Lease(Some(p), Some(owner))] == live;
    }
  }

  // Not the first in line.
  lemma TurnBehind(c: Config, s: State, p: Pid, newName: Name, alive: nat -> bool, luck: Luck)
      returns (r: Poll, t: State)
    requires Waits(s, p) && luck.locked && !s.drain && newName !in s.used
    requires !MayTry(s.procs[p].lease, LiveLeases(s.leases).Keys)
    ensures Reaches(c, p, s, t) && TurnEnds(c, s, p, newName, alive, luck, r, t)
  {
    ToList(c, s, p);
    var l := AtList(s, p, LiveLeases(s.leases));
    t := Queues(c, l, p, newName, luck);
    Trans(c, p, s, l, t);
    r := QueueIsTurn(c, s, p, newName, alive, luck, l, t);
  }

  // The scan of one whose turn it is.
  lemma TurnScans(c: Config, s: State, p: Pid, alive: nat -> bool) returns (m: State)
    requires Waits(s, p) && !s.drain && Honest(s, alive) && MayTry(s.procs[p].lease, LiveLeases(s.leases).Keys)
    ensures Reaches(c, p, s, m) && p in m.procs && m.procs[p].inQueue && m.leases == LiveLeases(s.leases)
    ensures m.procs[p].lease == s.procs[p].lease && m.procs[p].owner == s.procs[p].owner && m.used == s.used
    ensures m.active == AfterScan(s.active, s.locks, alive, s.capacity, p)
    ensures match Choice(s.active, s.locks, alive, s.capacity, p)
            case None => m.locks == s.locks && m.procs[p].pc == Busy(m.leases.Keys)
            case Some(x) => m.locks == s.locks[x := p] && m.procs[p].pc.Won? && m.procs[p].slot == Some(x)
  {
    ToList(c, s, p);
    var l := AtList(s, p, LiveLeases(s.leases));
    var ss, es := ScanRefines(c, l, p, l.leases.Keys, alive);
    m := ss[|ss| - 1];
    assert Reaches(c, p, l, m);
    Trans(c, p, s, l, m);
  }

  lemma TurnWins(c: Config, s: State, p: Pid, newName: Name, alive: nat -> bool, luck: Luck, m: State, x: Slot)
      returns (r: Poll, t: State)
    requires Waits(s, p) && luck.locked && !s.drain && MayTry(s.procs[p].lease, LiveLeases(s.leases).Keys)
    requires Choice(s.active, s.locks, alive, s.capacity, p) == Some(x)
    requires p in m.procs && m.procs[p].inQueue && m.leases == LiveLeases(s.leases)
    requires m.procs[p].lease == s.procs[p].lease && m.procs[p].owner == s.procs[p].owner
    requires m.active == AfterScan(s.active, s.locks, alive, s.capacity, p)
    requires m.locks == s.locks[x := p] && m.procs[p].pc.Won? && m.procs[p].slot == Some(x)
    ensures Reaches(c, p, m, t) && TurnEnds(c, s, p, newName, alive, luck, r, t)
  {
    ChosenIsClear(s.active, s.locks, alive, s.capacity, p);
    t := WonEnds(c, m, p, x, luck);
    assert s.locks[x := p] - {x} == s.locks;
    r := if luck.mark == Written then Granted(x) else Failed;
  }

  lemma TurnFirst(c: Config, s: State, p: Pid, newName: Name, alive: nat -> bool, luck: Luck)
      returns (r: Poll, t: State)
    requires Waits(s, p) && luck.locked && !s.drain && newName !in s.used && Honest(s, alive)
    requires MayTry(s.procs[p].lease, LiveLeases(s.leases).Keys)
    ensures Reaches(c, p, s, t) && TurnEnds(c, s, p, newName, alive, luck, r, t)
  {
    var m := TurnScans(c, s, p, alive);
    match Choice(s.active, s.locks, alive, s.capacity, p) {
      case None =>
        t := Queues(c, m, p, newName, luck);
        r := QueueIsTurn(c, s, p, newName, alive, luck, m, t);
      case Some(x) =>
        r, t := TurnWins(c, s, p, newName, alive, luck, m, x);
    }
    Trans(c, p, s, m, t);
  }

  // One poll of a process that acts alone, from the queue lock to its release, is a run of
  // single steps that ends with the decision and the files TakeTurn promises.
  lemma TurnIsRun(c: Config, s: State, p: Pid, newName: Name, alive: nat -> bool, luck: Luck)
      returns (r: Poll, t: State)
    requires Waits(s, p) && Honest(s, alive) && newName !in s.used
    ensures Reaches(c, p, s, t) && TurnEnds(c, s, p, newName, alive, luck, r, t)
  {
    if !luck.locked {
      r := Failed;
      t := TurnFails(c, s, p, newName, alive, luck);
    } else if s.drain {
      r := Denied(Draining);
      t := TurnDrained(c, s, p, newName, alive, luck);
    } else if MayTry(s.procs[p].lease, LiveLeases(s.leases).Keys) {
      r, t := TurnFirst(c, s, p, newName, alive, luck);
    } else {
      r, t := TurnBehind(c, s, p, newName, alive, luck);
    }
  }
}
