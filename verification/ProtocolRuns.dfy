// Whole runs of the slot protocol: the bound on live children, draining, capacity,
// queue limits and queue order.
module ProtocolRuns {
  import opened Wrappers
  import opened Protocol
  import opened ProtocolInvariant
  import opened ProtocolSafety

  datatype Event = Event(p: Pid, a: Action)

  ghost predicate StepAt(c: Config, ss: seq<State>, es: seq<Event>, i: nat) {
    i < |es| && i + 1 < |ss| && Next(c, ss[i], es[i].p, es[i].a, ss[i + 1])
  }

  ghost predicate Steps(c: Config, ss: seq<State>, es: seq<Event>) {
    && |ss| == |es| + 1
    && forall i: nat :: i < |es| ==> StepAt(c, ss, es, i)
  }

  // A run from a freshly initialised runtime.
  ghost predicate Run(c: Config, ss: seq<State>, es: seq<Event>) {
    Steps(c, ss, es) && Init(c, ss[0])
  }

  lemma {:induction false} RunInv(c: Config, ss: seq<State>, es: seq<Event>, i: nat)
    requires Run(c, ss, es) && i < |ss|
    ensures Inv(c, ss[i])
  {
    if i == 0 {
      InitInv(c, ss[0]);
    } else {
      RunInv(c, ss, es, i - 1);
      assert StepAt(c, ss, es, i - 1);
      NextInv(c, ss[i - 1], es[i - 1].p, es[i - 1].a, ss[i]);
    }
  }

  // ---- what a single step can change ---------------------------------------

  predicate InScan(pc: Pc) {
    pc.Scan? || pc.Probe? || pc.TryLock?
  }

  ghost predicate Effect(s: State, p: Pid, a: Action, t: State) {
    && KeepsProcs(s, p, t)
    && (t.drain != s.drain ==> a == SetDrain && p in s.procs && s.procs[p].pc == DrainIn(t.drain))
    && (t.capacity != s.capacity ==> p in s.procs && CapacityStep(s, p, a, t))
    && (a != ProbeDead && a != Crash ==> t.lost <= s.lost)
    && (p in s.procs && p in t.procs && InScan(s.procs[p].pc) && InScan(t.procs[p].pc) ==>
          t.procs[p] == s.procs[p] || ScanStep(s, p, a, t))
  }

  // A step that moves p alone and leaves drain, capacity and scanning be.
  lemma PlainEffect(s: State, p: Pid, a: Action, t: State)
    requires p in s.procs && p in t.procs && t.procs == s.procs[p := t.procs[p]]
    requires t.drain == s.drain && t.capacity == s.capacity && t.lost == s.lost
    requires !InScan(s.procs[p].pc) || !InScan(t.procs[p].pc)
    ensures Effect(s, p, a, t)
  {
  }

  lemma PruneEffect(s: State, p: Pid, a: Action, t: State)
    requires p in s.procs && PruneStep(s, p, a, t)
    ensures Effect(s, p, a, t)
  {
    PlainEffect(s, p, a, t);
  }

  lemma GateEffect(s: State, p: Pid, a: Action, t: State)
    requires p in s.procs && GateStep(s, p, a, t)
    ensures Effect(s, p, a, t)
  {
    PlainEffect(s, p, a, t);
  }

  // A scan step that only reads.
  lemma ReadingEffect(s: State, p: Pid, a: Action, t: State)
    requires p in s.procs && ScanStep(s, p, a, t) && t == Put(s, p, t.procs[p])
    ensures Effect(s, p, a, t)
  {
  }

  lemma ScanReadEffect(s: State, p: Pid, a: Action, t: State)
    requires p in s.procs && ScanStep(s, p, a, t) && s.procs[p].pc.Scan?
    ensures Effect(s, p, a, t)
  {
    ReadingEffect(s, p, a, t);
  }

  lemma ScanProbeEffect(s: State, p: Pid, a: Action, t: State)
    requires p in s.procs && ScanStep(s, p, a, t) && s.procs[p].pc.Probe?
    ensures Effect(s, p, a, t)
  {
  }

  lemma ScanLockEffect(s: State, p: Pid, a: Action, t: State)
    requires p in s.procs && ScanStep(s, p, a, t) && s.procs[p].pc.TryLock?
    ensures Effect(s, p, a, t)
  {
  }

  lemma ScanEffect(s: State, p: Pid, a: Action, t: State)
    requires p in s.procs && ScanStep(s, p, a, t)
    ensures Effect(s, p, a, t)
  {
    if s.procs[p].pc.Scan? {
      ScanReadEffect(s, p, a, t);
    } else if s.procs[p].pc.Probe? {
      ScanProbeEffect(s, p, a, t);
    } else {
      ScanLockEffect(s, p, a, t);
    }
  }

  lemma GrantEffect(s: State, p: Pid, a: Action, t: State)
    requires p in s.procs && GrantStep(s, p, a, t)
    ensures Effect(s, p, a, t)
  {
    PlainEffect(s, p, a, t);
  }

  lemma QueueEffect(c: Config, s: State, p: Pid, a: Action, t: State)
    requires p in s.procs && (AdmitStep(c, s, p, a, t) || LeaseStep(s, p, a, t))
    ensures Effect(s, p, a, t)
  {
  }

  lemma WaitEffect(s: State, p: Pid, a: Action, t: State)
    requires p in s.procs && WaitStep(s, p, a, t)
    ensures Effect(s, p, a, t)
  {
  }

  lemma JobEffect(s: State, p: Pid, a: Action, t: State)
    requires p in s.procs && JobStep(s, p, a, t)
    ensures Effect(s, p, a, t)
  {
  }

  lemma DropEffect(s: State, p: Pid, a: Action, t: State)
    requires p in s.procs && DropStep(s, p, a, t)
    ensures Effect(s, p, a, t)
  {
  }

  lemma AdminEffect(s: State, p: Pid, a: Action, t: State)
    requires p in s.procs && (DrainStep(s, p, a, t) || IdleStep(s, p, a, t) || CapacityStep(s, p, a, t))
    ensures Effect(s, p, a, t)
  {
  }

  lemma FreeEffect(s: State, p: Pid, a: Action, t: State)
    requires FreeStep(s, p, a, t) || (p in s.procs && a == Crash && t == AfterCrash(s, p))
    ensures Effect(s, p, a, t)
  {
  }

  lemma PollEffect(c: Config, s: State, p: Pid, a: Action, t: State)
    requires p in s.procs && PollStep(c, s, p, a, t)
    ensures Effect(s, p, a, t)
  {
    if PruneStep(s, p, a, t) {
      PruneEffect(s, p, a, t);
    } else if GateStep(s, p, a, t) {
      GateEffect(s, p, a, t);
    } else if ScanStep(s, p, a, t) {
      ScanEffect(s, p, a, t);
    } else if GrantStep(s, p, a, t) {
      GrantEffect(s, p, a, t);
    } else if AdmitStep(c, s, p, a, t) || LeaseStep(s, p, a, t) {
      QueueEffect(c, s, p, a, t);
    } else {
      WaitEffect(s, p, a, t);
    }
  }

  lemma PermitEffect(s: State, p: Pid, a: Action, t: State)
    requires p in s.procs && PermitStep(s, p, a, t)
    ensures Effect(s, p, a, t)
  {
    if JobStep(s, p, a, t) {
      JobEffect(s, p, a, t);
    } else if DropStep(s, p, a, t) {
      DropEffect(s, p, a, t);
    } else if DrainStep(s, p, a, t) || IdleStep(s, p, a, t) || CapacityStep(s, p, a, t) {
      AdminEffect(s, p, a, t);
    } else {
      FreeEffect(s, p, a, t);
    }
  }

  lemma StepEffect(c: Config, s: State, p: Pid, a: Action, t: State)
    requires Next(c, s, p, a, t)
    ensures Effect(s, p, a, t)
  {
    if FreeStep(s, p, a, t) {
      FreeEffect(s, p, a, t);
    } else if PollStep(c, s, p, a, t) {
      PollEffect(c, s, p, a, t);
    } else {
      PermitEffect(s, p, a, t);
    }
  }

  // ---- the bound on live children ------------------------------------------

  lemma {:induction false} Pigeonhole(a: set<nat>, f: nat -> nat, n: nat)
    requires forall k :: k in a ==> f(k) < n
    requires forall k, l :: k in a && l in a && k != l ==> f(k) != f(l)
    ensures |a| <= n
  {
    if n == 0 {
      assert a == {};
    } else if k :| k in a && f(k) == n - 1 {
      Pigeonhole(a - {k}, f, n - 1);
    } else {
      Pigeonhole(a, f, n - 1);
    }
  }

  // Recorded children sit on distinct slots below the capacity.
  lemma RecordedSlots(c: Config, s: State, k: Child)
    requires Inv(c, s) && Recorded(s, k)
    ensures k in s.tenant && s.tenant[k] < s.capacity && Backed(s, k, s.tenant[k])
    ensures forall l :: Recorded(s, l) && l != k ==> l in s.tenant && s.tenant[l] != s.tenant[k]
  {
  }

  function TenantOf(s: State, k: Child): Slot {
    if k in s.tenant then s.tenant[k] else 0
  }

  lemma KidsBounded(c: Config, s: State)
    requires Inv(c, s)
    ensures |s.kids| <= s.capacity + |s.lost|
  {
    var recorded := s.kids - s.lost;
    forall k | k in recorded ensures k in s.tenant && s.tenant[k] < s.capacity {
      RecordedSlots(c, s, k);
    }
    forall k, l | k in recorded && l in recorded && k != l ensures s.tenant[k] != s.tenant[l] {
      RecordedSlots(c, s, k);
    }
    Pigeonhole(recorded, k => TenantOf(s, k), s.capacity);
    SubsetSize(s.kids, recorded + s.lost);
  }

  // A SIGKILL between spawn and mark_running, or a reclaimed slot whose metadata
  // changed between the read and the probes, while the child still runs.
  ghost predicate Loses(s: State, e: Event) {
    && e.p in s.procs
    && var pc := s.procs[e.p].pc;
       || (e.a == Crash && pc.Spawned? && Recorded(s, pc.child))
       || (e.a == ProbeDead && pc.Probe? && pc.cap > 0
           && exists k :: Recorded(s, k) && k in KidsAt(s, SlotAt(pc.cap, pc.start, pc.k)))
  }

  ghost function Losses(ss: seq<State>, es: seq<Event>, i: nat): nat
    requires |ss| == |es| + 1 && i <= |es|
  {
    if i == 0 then 0 else Losses(ss, es, i - 1) + if Loses(ss[i - 1], es[i - 1]) then 1 else 0
  }

  // The reader's copy of the metadata is stale whenever a probe loses a child.
  lemma FreshProbeLosesNothing(c: Config, s: State, p: Pid, t: State)
    requires Inv(c, s) && p in s.procs && ScanStep(s, p, ProbeDead, t)
    requires s.active[SlotAt(s.procs[p].pc.cap, s.procs[p].pc.start, s.procs[p].pc.k)] == s.procs[p].pc.seen
    ensures !Loses(s, Event(p, ProbeDead)) && t.lost * t.kids == s.lost * s.kids
  {
    var x := SlotAt(s.procs[p].pc.cap, s.procs[p].pc.start, s.procs[p].pc.k);
    forall k | k in KidsAt(s, x) ensures !Recorded(s, k) {
    }
  }

  lemma OneMore(a: set<Child>, b: set<Child>)
    requires forall k, l :: k in b - a && l in b - a ==> k == l
    ensures |a + b| <= |a| + if b - a == {} then 0 else 1
  {
    var more := b - a;
    assert a + b == a + more;
    if k :| k in more {
      SubsetSize(more, {k});
    }
  }

  lemma LostByProbe(c: Config, s: State, p: Pid, t: State)
    requires Inv(c, s) && p in s.procs && ScanStep(s, p, ProbeDead, t)
    ensures |t.lost| <= |s.lost| + if Loses(s, Event(p, ProbeDead)) then 1 else 0
  {
    var pc := s.procs[p].pc;
    var dead := KidsAt(s, SlotAt(pc.cap, pc.start, pc.k));
    forall k, l | k in dead - s.lost && l in dead - s.lost ensures k == l {
      assert Recorded(s, k) && Recorded(s, l);
    }
    OneMore(s.lost, dead);
  }

  lemma ProbeIsScan(c: Config, s: State, p: Pid, t: State)
    requires Next(c, s, p, ProbeDead, t)
    ensures p in s.procs && ScanStep(s, p, ProbeDead, t)
  {
  }

  // A step that loses nothing leaves the lost children alone, any other adds one.
  lemma LostGrows(c: Config, s: State, e: Event, t: State)
    requires Inv(c, s) && Next(c, s, e.p, e.a, t)
    ensures |t.lost| <= |s.lost| + if Loses(s, e) then 1 else 0
  {
    if e.a == ProbeDead {
      ProbeIsScan(c, s, e.p, t);
      LostByProbe(c, s, e.p, t);
    } else if e.a == Crash {
      LostByCrash(s, e.p, t);
    } else {
      LostKept(c, s, e, t);
    }
  }

  lemma LostByCrash(s: State, p: Pid, t: State)
    requires p in s.procs && t == AfterCrash(s, p)
    ensures |t.lost| <= |s.lost| + if Loses(s, Event(p, Crash)) then 1 else 0
  {
    var pc := s.procs[p].pc;
    if pc.Spawned? {
      OneMore(s.lost, {pc.child});
    }
  }

  lemma LostKept(c: Config, s: State, e: Event, t: State)
    requires Next(c, s, e.p, e.a, t) && e.a != ProbeDead && e.a != Crash
    ensures |t.lost| <= |s.lost|
  {
    StepEffect(c, s, e.p, e.a, t);
    SubsetSize(t.lost, s.lost);
  }

  lemma LostAt(c: Config, ss: seq<State>, es: seq<Event>, i: nat)
    requires Run(c, ss, es) && i < |es|
    ensures |ss[i + 1].lost| <= |ss[i].lost| + if Loses(ss[i], es[i]) then 1 else 0
  {
    RunInv(c, ss, es, i);
    assert StepAt(c, ss, es, i);
    LostGrows(c, ss[i], es[i], ss[i + 1]);
  }

  lemma {:induction false} LostCounted(c: Config, ss: seq<State>, es: seq<Event>, i: nat)
    requires Run(c, ss, es) && i <= |es|
    ensures |ss[i].lost| <= Losses(ss, es, i)
  {
    if i > 0 {
      LostCounted(c, ss, es, i - 1);
      LostAt(c, ss, es, i - 1);
    }
  }

  // In every run and at every point of it, the live governed children number at
  // most the capacity plus the losing events so far.
  lemma ConcurrencyBound(c: Config, ss: seq<State>, es: seq<Event>, i: nat)
    requires Run(c, ss, es) && i <= |es|
    ensures |ss[i].kids| <= ss[i].capacity + Losses(ss, es, i) <= 2 + Losses(ss, es, i)
  {
    RunInv(c, ss, es, i);
    KidsBounded(c, ss[i]);
    LostCounted(c, ss, es, i);
  }

  // ---- grants, draining and capacity ----------------------------------------

  // No permit is handed out for a slot a recorded child still lives on, beyond
  // the capacity, while draining, or past a smaller lease.
  lemma GrantIsSafe(c: Config, s: State, p: Pid, t: State)
    requires Inv(c, s) && p in s.procs && ScanStep(s, p, LockSlot, t)
    ensures !s.drain && t.procs[p].slot.Some? && t.procs[p].slot.value < s.capacity
    ensures forall k :: Recorded(s, k) ==> s.tenant[k] != t.procs[p].slot.value
    ensures forall q :: q in s.procs ==> s.procs[q].slot != t.procs[p].slot
    ensures match s.procs[p].lease
            case None => s.leases == map[]
            case Some(n) => n in s.leases && forall m :: m in s.leases ==> n <= m
  {
    SoundNow(c, s, p);
    AllLocks(c, s);
    var x := t.procs[p].slot.value;
    forall q | q in s.procs ensures s.procs[q].slot != Some(x) {
      assert LocksOk(s, q);
    }
  }

  ghost predicate Resumes(s: State, e: Event) {
    e.a == SetDrain && e.p in s.procs && s.procs[e.p].pc == DrainIn(false)
  }

  lemma DrainKept(c: Config, ss: seq<State>, es: seq<Event>, k: nat)
    requires Steps(c, ss, es) && k < |es| && ss[k].drain && !Resumes(ss[k], es[k])
    ensures ss[k + 1].drain
  {
    assert StepAt(c, ss, es, k);
    StepEffect(c, ss[k], es[k].p, es[k].a, ss[k + 1]);
  }

  lemma {:induction false} DrainLasts(c: Config, ss: seq<State>, es: seq<Event>, i: nat, j: nat)
    requires Steps(c, ss, es) && i <= j < |ss| && ss[i].drain
    requires forall k :: i <= k < j ==> !Resumes(ss[k], es[k])
    ensures ss[j].drain
  {
    if i < j {
      var k := j - 1;
      DrainLasts(c, ss, es, i, k);
      assert !Resumes(ss[k], es[k]);
      DrainKept(c, ss, es, k);
    }
  }

  // Once a drain has completed, no permit is granted until a resume.
  lemma NoGrantWhileDraining(c: Config, ss: seq<State>, es: seq<Event>, i: nat, j: nat)
    requires Run(c, ss, es) && i <= j < |es| && ss[i].drain
    requires forall k :: i <= k < j ==> !Resumes(ss[k], es[k])
    ensures es[j].a != LockSlot
  {
    DrainLasts(c, ss, es, i, j);
    RunInv(c, ss, es, j);
    assert StepAt(c, ss, es, j);
    if es[j].a == LockSlot {
      GrantIsSafe(c, ss[j], es[j].p, ss[j + 1]);
    }
  }

  // The capacity changes only in a drained pool with no metadata, no lease and
  // no child that a file accounts for.
  lemma CapacityChangesIdle(c: Config, s: State, p: Pid, a: Action, t: State)
    requires Inv(c, s) && Next(c, s, p, a, t) && t.capacity != s.capacity
    ensures s.drain && s.active.Keys == {} && s.leases.Keys == {} && 1 <= t.capacity <= 2
    ensures forall k :: !Recorded(s, k)
  {
    StepEffect(c, s, p, a, t);
    SoundNow(c, s, p);
  }

  lemma {:induction false} Sleeps(c: Config, ss: seq<State>, es: seq<Event>, p: Pid, i: nat, j: nat)
    requires Steps(c, ss, es) && i <= j < |ss| && p in ss[i].procs
    requires forall k :: i <= k < j ==> es[k].p != p
    ensures p in ss[j].procs && ss[j].procs[p] == ss[i].procs[p]
  {
    if i < j {
      Sleeps(c, ss, es, p, i, j - 1);
      SleepsOn(c, ss, es, p, j - 1);
    }
  }

  lemma SleepsOn(c: Config, ss: seq<State>, es: seq<Event>, p: Pid, k: nat)
    requires Steps(c, ss, es) && k < |es| && p in ss[k].procs && es[k].p != p
    ensures p in ss[k + 1].procs && ss[k + 1].procs[p] == ss[k].procs[p]
  {
    assert StepAt(c, ss, es, k);
    StepEffect(c, ss[k], es[k].p, es[k].a, ss[k + 1]);
  }

  // When the configuration cannot be saved and the rollback is written, the
  // capacity is what it was before the change, whatever ran in between.
  lemma RollbackRestores(c: Config, ss: seq<State>, es: seq<Event>, p: Pid, i: nat, j: nat)
    requires Steps(c, ss, es) && i < j < |es|
    requires es[i] == Event(p, WriteCapacity) && es[j] == Event(p, RolledBack)
    requires forall k :: i < k < j ==> es[k].p != p
    ensures ss[j + 1].capacity == ss[i].capacity
  {
    WriteRemembers(c, ss, es, p, i);
    Sleeps(c, ss, es, p, i + 1, j);
    RollbackWrites(c, ss, es, p, j);
  }

  lemma WriteRemembers(c: Config, ss: seq<State>, es: seq<Event>, p: Pid, i: nat)
    requires Steps(c, ss, es) && i < |es| && es[i] == Event(p, WriteCapacity)
    ensures p in ss[i + 1].procs && ss[i + 1].procs[p].pc == CapWritten(ss[i].capacity)
  {
    assert StepAt(c, ss, es, i);
  }

  lemma RollbackWrites(c: Config, ss: seq<State>, es: seq<Event>, p: Pid, i: nat)
    requires Steps(c, ss, es) && i < |es| && es[i] == Event(p, RolledBack)
    ensures p in ss[i].procs && ss[i].procs[p].pc.CapWritten? && ss[i + 1].capacity == ss[i].procs[p].pc.previous
  {
    assert StepAt(c, ss, es, i);
  }

  // ---- the queue -------------------------------------------------------------

  // Nobody but its owner ends a waiter: no other process prunes or unlocks the
  // lease of a live one.
  lemma LeaseSurvivesOthers(c: Config, s: State, p: Pid, a: Action, t: State, q: Pid)
    requires Inv(c, s) && Next(c, s, p, a, t) && q in s.procs && s.procs[q].lease.Some? && q != p
    ensures q in t.procs && t.procs[q] == s.procs[q]
    ensures OwnsLease(t, q, s.procs[q].lease.value)
  {
    StepEffect(c, s, p, a, t);
    NextInv(c, s, p, a, t);
    assert MineOk(c, t, q);
  }

  // Its own prune does not take it either.
  lemma LeaseSurvivesOwnPrune(c: Config, s: State, p: Pid, a: Action, t: State)
    requires Inv(c, s) && p in s.procs && PruneStep(s, p, a, t) && s.procs[p].lease.Some?
    ensures p in t.procs && t.procs[p].lease == s.procs[p].lease
    ensures OwnsLease(t, p, s.procs[p].lease.value)
  {
    PruneInv(c, s, p, a, t);
    assert MineOk(c, t, p);
  }

  // As long as a process waits with lease n, every permit goes to itself or to a
  // smaller lease; newcomers get none.
  lemma NotOvertaken(c: Config, ss: seq<State>, es: seq<Event>, q: Pid, n: Name, i: nat, j: nat, k: nat)
    requires Run(c, ss, es) && i <= k < j < |ss| && es[k].a == LockSlot
    requires forall l :: i <= l < j ==> q in ss[l].procs && ss[l].procs[q].lease == Some(n)
    ensures es[k].p in ss[k].procs && ss[k].procs[es[k].p].lease.Some?
    ensures ss[k].procs[es[k].p].lease.value <= n
    ensures ss[k].procs[es[k].p].lease.value == n ==> es[k].p == q
  {
    RunInv(c, ss, es, k);
    assert StepAt(c, ss, es, k);
    assert MineOk(c, ss[k], q) && MineOk(c, ss[k], es[k].p);
    GrantIsSafe(c, ss[k], es[k].p, ss[k + 1]);
  }

  lemma {:induction false} InjectiveSize(a: set<nat>, f: nat -> nat, b: set<nat>)
    requires forall k :: k in a ==> f(k) in b
    requires forall k, l :: k in a && l in a && k != l ==> f(k) != f(l)
    ensures |a| <= |b|
  {
    if k :| k in a {
      InjectiveSize(a - {k}, f, b - {f(k)});
    }
  }

  function WaitingFor(s: State, o: Owner): set<Pid> {
    set p | p in s.procs && s.procs[p].lease.Some? && s.procs[p].owner == o
  }

  function Waiting(s: State): set<Pid> {
    set p | p in s.procs && s.procs[p].lease.Some?
  }

  function LeaseOf(s: State, p: Pid): Name {
    if p in s.procs && s.procs[p].lease.Some? then s.procs[p].lease.value else 0
  }

  // The lease names of two waiters differ, and each is held by its waiter.
  lemma LeasesDiffer(c: Config, s: State)
    requires Inv(c, s)
    ensures forall p :: p in Waiting(s) ==> OwnsLease(s, p, LeaseOf(s, p))
  {
    forall p | p in Waiting(s) ensures OwnsLease(s, p, LeaseOf(s, p)) {
      assert MineOk(c, s, p);
    }
  }

  // Live waiters never exceed max_queue ...
  lemma WaitersBounded(c: Config, s: State)
    requires Inv(c, s)
    ensures |Waiting(s)| <= |s.leases| <= c.maxQueue
  {
    LeasesDiffer(c, s);
    InjectiveSize(Waiting(s), (p: nat) => LeaseOf(s, p), s.leases.Keys);
  }

  // A waiter's lease records its owner, unless it is still being filled in, which only
  // one process does at a time, with room left for it.
  lemma WaiterRecorded(c: Config, s: State, p: Pid)
    requires Inv(c, s) && p in Waiting(s)
    ensures if s.procs[p].pc.Filling?
            then s.queue == Some(p) && |OwnerNames(s.leases, s.procs[p].owner)| < c.maxPerOwner
            else LeaseOf(s, p) in OwnerNames(s.leases, s.procs[p].owner)
  {
    assert MineOk(c, s, p);
  }

  // ... nor those of one owner max_queued_per_owner, the one still writing its lease
  // included.
  lemma OwnerWaitersBounded(c: Config, s: State, o: Owner)
    requires Inv(c, s)
    ensures |WaitingFor(s, o)| <= c.maxPerOwner
  {
    LeasesDiffer(c, s);
    var f, names := (p: nat) => LeaseOf(s, p), OwnerNames(s.leases, o);
    forall p | p in WaitingFor(s, o) ensures f(p) in names || (s.procs[p].pc.Filling? && s.queue == Some(p)) {
      WaiterRecorded(c, s, p);
    }
    if q :| q in WaitingFor(s, o) && s.procs[q].pc.Filling? {
      WaiterRecorded(c, s, q);
      InjectiveSize(WaitingFor(s, o), f, names + {f(q)});
    } else {
      InjectiveSize(WaitingFor(s, o), f, names);
    }
  }

  // In every state of every run.
  lemma QueueLimits(c: Config, ss: seq<State>, es: seq<Event>, i: nat, o: Owner)
    requires Run(c, ss, es) && i < |ss|
    ensures |Waiting(ss[i])| <= |ss[i].leases| <= c.maxQueue && |WaitingFor(ss[i], o)| <= c.maxPerOwner
  {
    RunInv(c, ss, es, i);
    WaitersBounded(c, ss[i]);
    OwnerWaitersBounded(c, ss[i], o);
  }
}
