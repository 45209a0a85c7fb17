// The slot scheduler as a transition system. Any number of agent-gov processes
// share files and flock-style locks; every constructor of Action is one step of
// one process (or of a child, or of the environment), so a run interleaves them
// in every possible way, and Crash may strike a process between any two steps.
//
// A lock belongs to an open file, not to a process: a process that opens its own
// lease file a second time finds it locked like any other.
module Protocol {
  import opened Wrappers

  type Pid = nat
  type Child = nat
  type Slot = nat
  type Name = nat   // lease file names in directory order, see LeaseNames
  type Owner = nat

  datatype Config = Config(maxQueue: nat, maxPerOwner: nat)

  // active/slot-N.json; a slot without an entry in State.active has no file.
  datatype Meta = Corrupt | Starting(sup: Pid) | Running(sup: Pid, child: Child)

  // waiters/*.lease: who holds the lock on the file, and the owner it records.
  datatype Lease = Lease(lock: Option<Pid>, owner: Option<Owner>)

  datatype Pc =
    // Scheduler::acquire, one poll
    | Outside
    | Entered
    | Prune(all: set<Name>, todo: set<Name>)
    | PruneHit(all: set<Name>, todo: set<Name>, name: Name)
    | Gate
    | List
    | Scan(waiters: set<Name>, cap: nat, start: nat, k: nat)
    | Probe(waiters: set<Name>, cap: nat, start: nat, k: nat, seen: Meta)
    | TryLock(waiters: set<Name>, cap: nat, start: nat, k: nat)
    | Won
    | Unlisting(name: Name)
    | Cleared
    | Marked
    | Busy(waiters: set<Name>)
    | Admitted(waiters: set<Name>)
    | Created(name: Name)
    | Filling
    | Leave
    | Polled
    | Quit
    | Removing(name: Name)
    // the permit and its supervisor
    | Ready
    | Spawned(child: Child)
    | Attached(child: Child)
    | Closing
    | Unmarked
    // drain, resume, config set-capacity, status
    | DrainWait(enabled: bool)
    | DrainIn(enabled: bool)
    | CapWait(wanted: nat)
    | CapIn(wanted: nat)
    | CapCount(wanted: nat, upto: nat)
    | CapList(wanted: nat)
    | CapIdle(wanted: nat)
    | CapWritten(previous: nat)
    | AdminLeave
    | ProbeWait(target: Slot)
    | Probing

  // inQueue, lease and slot are the open files a process has locked: the queue
  // lock, its waiter lease and a slot lock.
  datatype Proc = Proc(owner: Owner, inQueue: bool, lease: Option<Name>, slot: Option<Slot>, pc: Pc)

  // used, tenant and lost are history: every lease name ever created, the slot
  // each child was started on, and the live children no file records any more.
  datatype State = State(
    procs: map<Pid, Proc>,
    queue: Option<Pid>,
    locks: map<Slot, Pid>,
    active: map<Slot, Meta>,
    leases: map<Name, Lease>,
    used: set<Name>,
    drain: bool,
    capacity: nat,
    kids: set<Child>,
    tenant: map<Child, Slot>,
    lost: set<Child>)

  datatype Action =
    | StartRun(owner: Owner) | StartDrain(enabled: bool) | StartCapacity(wanted: nat) | StartProbe(target: Slot)
    | Enter | ListStale | PruneSkip(name: Name) | PruneTake(name: Name) | PruneRemove | PruneDone
    | GateShut | GateOpen | ListWaiters | FailOut
    | ReadAbsent | ReadPresent | ReadUnreadable | ProbeAlive | ProbeDead | LockSlot | SlotBusy | ScanOver
    | FreeLease | EraseLease | KeepNoLease | MarkStarting | MarkStartingFails(written: bool) | LeaveGranted
    | StayQueued | Admit | Reject | Create(name: Name) | LockLease | FillLease | FillFails
    | LeaveQueued | TimeOut | Again | EnterFails
    | QuitFree | QuitErase | QuitPlain
    | Spawn(child: Child) | SpawnFails | MarkRunning | MarkRunningFails(written: bool)
    | Reap | ReapByForce | Unmark | UnmarkFails | UnlockSlot
    | SetDrain | CheckDrain | CountSlot | CountDone | CheckIdle | AdminFails
    | WriteCapacity | WriteCapacityFails(written: bool) | Persisted | RolledBack | RollbackFails(written: bool)
    | AdminDone | ProbeLock | ProbeBusy | ProbeDone
    | Crash
    | ChildExits(child: Child) | Scribble(slot: Slot)

  function SlotAt(cap: nat, start: nat, k: nat): Slot
    requires cap > 0
  {
    (start + k) % cap
  }

  // Points of the critical section where an early return drops only the queue lock.
  predicate MayFail(pc: Pc) {
    pc.Entered? || pc.Prune? || pc.PruneHit? || pc.List? || pc.Scan? || pc.Probe? || pc.TryLock?
    || pc.Admitted?
  }

  ghost predicate Drops<K(!new), V>(m: map<K, V>, k: K, r: map<K, V>) {
    && k !in r
    && (forall j :: j in m && j != k ==> j in r && r[j] == m[j])
    && (forall j :: j in r ==> j in m && j != k)
  }

  // m - {k}, known by its properties alone.
  ghost function Without<K(!new), V>(m: map<K, V>, k: K): (r: map<K, V>)
    ensures Drops(m, k, r)
  {
    assert Drops(m, k, m - {k});
    var r: map<K, V> :| Drops(m, k, r);
    r
  }

  lemma WithoutIs<K(!new), V>(m: map<K, V>, k: K)
    ensures Without(m, k) == m - {k}
  {
  }

  function Put(s: State, p: Pid, pr: Proc): State {
    s.(procs := s.procs[p := pr])
  }

  ghost function Gone(s: State, p: Pid): State {
    s.(procs := Without(s.procs, p))
  }

  // The kernel closes every descriptor of a process that dies.
  ghost function AfterCrash(s: State, p: Pid): State
    requires p in s.procs
  {
    var pr := s.procs[p];
    Gone(s, p).(
      queue := if pr.inQueue then None else s.queue,
      locks := if pr.slot.Some? then Without(s.locks, pr.slot.value) else s.locks,
      leases := if pr.lease.Some? then FreedLease(s.leases, pr.lease.value) else s.leases,
      lost := if pr.pc.Spawned? && pr.pc.child in s.kids then s.lost + {pr.pc.child} else s.lost)
  }

  function FreedLease(leases: map<Name, Lease>, n: Name): map<Name, Lease> {
    if n in leases then leases[n := leases[n].(lock := None)] else leases
  }

  // Live children started on slot x.
  function KidsAt(s: State, x: Slot): set<Child> {
    set c | c in s.kids && c in s.tenant && s.tenant[c] == x
  }

  function OwnerNames(leases: map<Name, Lease>, owner: Owner): set<Name> {
    set n | n in leases && leases[n].owner == Some(owner)
  }

  // Whose turn it is: the least lease goes first, and a newcomer only if nobody waits.
  predicate MayTry(lease: Option<Name>, waiters: set<Name>) {
    match lease
    case None => waiters == {}
    case Some(n) => n in waiters && forall m :: m in waiters ==> n <= m
  }

  // A poll takes the queue lock and prunes the leases nobody holds.
  ghost predicate PruneStep(s: State, p: Pid, a: Action, t: State)
    requires p in s.procs
  {
    var pr := s.procs[p];
    var pc := pr.pc;
    match a
    case Enter =>
      && s.queue == None && pc.Outside?
      && t == Put(s, p, pr.(pc := Entered, inQueue := true)).(queue := Some(p))
    case ListStale =>
      pc.Entered? && t == Put(s, p, pr.(pc := Prune(s.leases.Keys, s.leases.Keys)))
    case PruneSkip(n) =>
      && pc.Prune? && n in pc.todo && n in s.leases && s.leases[n].lock.Some?
      && t == Put(s, p, pr.(pc := Prune(pc.all, pc.todo - {n})))
    case PruneTake(n) =>
      // open_private_file creates a file that vanished since the listing
      && pc.Prune? && n in pc.todo && (n in s.leases ==> s.leases[n].lock.None?)
      && t == Put(s, p, pr.(pc := PruneHit(pc.all, pc.todo - {n}, n))).(
                leases := if n in s.leases then s.leases else s.leases[n := Lease(None, None)])
    case PruneRemove =>
      && pc.PruneHit? && pc.name in s.leases
      && t == Put(s, p, pr.(pc := Prune(pc.all, pc.todo))).(leases := Without(s.leases, pc.name))
    case PruneDone => pc.Prune? && pc.todo == {} && t == Put(s, p, pr.(pc := Gate))
    case _ => false
  }

  // The drain flag, the listing, and every early return from the critical section.
  ghost predicate GateStep(s: State, p: Pid, a: Action, t: State)
    requires p in s.procs
  {
    var pr := s.procs[p];
    var pc := pr.pc;
    match a
    case GateShut =>
      pc.Gate? && s.drain && t == Put(s, p, pr.(pc := Quit, inQueue := false)).(queue := None)
    case GateOpen => pc.Gate? && !s.drain && t == Put(s, p, pr.(pc := List))
    case ListWaiters =>
      && pc.List? && s.capacity > 0
      && t == Put(s, p, pr.(pc := if MayTry(pr.lease, s.leases.Keys)
                                  then Scan(s.leases.Keys, s.capacity, p % s.capacity, 0)
                                  else Busy(s.leases.Keys)))
    case FailOut =>
      MayFail(pc) && t == Put(s, p, pr.(pc := Quit, inQueue := false)).(queue := None)
    case _ => false
  }

  // try_slots: every slot once, starting from the process id.
  ghost predicate ScanStep(s: State, p: Pid, a: Action, t: State)
    requires p in s.procs
  {
    var pr := s.procs[p];
    var pc := pr.pc;
    match a
    case ReadAbsent =>
      && pc.Scan? && pc.k < pc.cap && SlotAt(pc.cap, pc.start, pc.k) !in s.active
      && t == Put(s, p, pr.(pc := TryLock(pc.waiters, pc.cap, pc.start, pc.k)))
    case ReadPresent =>
      && pc.Scan? && pc.k < pc.cap
      && var x := SlotAt(pc.cap, pc.start, pc.k);
         x in s.active && !s.active[x].Corrupt?
         && t == Put(s, p, pr.(pc := Probe(pc.waiters, pc.cap, pc.start, pc.k, s.active[x])))
    case ReadUnreadable =>
      // corrupt, or removed between exists() and read()
      && pc.Scan? && pc.k < pc.cap && SlotAt(pc.cap, pc.start, pc.k) in s.active
      && t == Put(s, p, pr.(pc := Scan(pc.waiters, pc.cap, pc.start, pc.k + 1)))
    case ProbeAlive =>
      // always possible: a reused process id looks alive
      pc.Probe? && t == Put(s, p, pr.(pc := Scan(pc.waiters, pc.cap, pc.start, pc.k + 1)))
    case ProbeDead =>
      && pc.Probe? && pc.cap > 0 && !pc.seen.Corrupt?
      && pc.seen.sup !in s.procs && (pc.seen.Running? ==> pc.seen.child !in s.kids)
      && var x := SlotAt(pc.cap, pc.start, pc.k);
         x in s.active
         && t == Put(s, p, pr.(pc := TryLock(pc.waiters, pc.cap, pc.start, pc.k))).(
                   active := Without(s.active, x), lost := s.lost + KidsAt(s, x))
    case LockSlot =>
      && pc.TryLock? && pc.cap > 0
      && var x := SlotAt(pc.cap, pc.start, pc.k);
         x !in s.locks
         && t == Put(s, p, pr.(pc := Won, slot := Some(x))).(locks := s.locks[x := p])
    case SlotBusy =>
      && pc.TryLock? && pc.cap > 0 && SlotAt(pc.cap, pc.start, pc.k) in s.locks
      && t == Put(s, p, pr.(pc := Scan(pc.waiters, pc.cap, pc.start, pc.k + 1)))
    case ScanOver => pc.Scan? && pc.k == pc.cap && t == Put(s, p, pr.(pc := Busy(pc.waiters)))
    case _ => false
  }

  // A won slot: the lease goes, the metadata comes, the queue lock is released.
  ghost predicate GrantStep(s: State, p: Pid, a: Action, t: State)
    requires p in s.procs
  {
    var pr := s.procs[p];
    var pc := pr.pc;
    match a
    case FreeLease =>
      && pc.Won? && pr.lease.Some?
      && t == Put(s, p, pr.(pc := Unlisting(pr.lease.value), lease := None)).(
                leases := FreedLease(s.leases, pr.lease.value))
    case EraseLease =>
      pc.Unlisting? && t == Put(s, p, pr.(pc := Cleared)).(leases := Without(s.leases, pc.name))
    case KeepNoLease => pc.Won? && pr.lease.None? && t == Put(s, p, pr.(pc := Cleared))
    case MarkStarting =>
      && pc.Cleared? && pr.slot.Some?
      && t == Put(s, p, pr.(pc := Marked)).(active := s.active[pr.slot.value := Starting(p)])
    case MarkStartingFails(written) =>
      && pc.Cleared? && pr.slot.Some?
      && t == Put(s, p, pr.(pc := Closing)).(
                active := if written then s.active[pr.slot.value := Starting(p)] else s.active)
    case LeaveGranted =>
      pc.Marked? && t == Put(s, p, pr.(pc := Ready, inQueue := false)).(queue := None)
    case _ => false
  }

  // No slot this time: stay queued, or pass admission.
  ghost predicate AdmitStep(c: Config, s: State, p: Pid, a: Action, t: State)
    requires p in s.procs
  {
    var pr := s.procs[p];
    var pc := pr.pc;
    match a
    case StayQueued => pc.Busy? && pr.lease.Some? && t == Put(s, p, pr.(pc := Leave))
    case Admit =>
      && pc.Busy? && pr.lease.None? && |pc.waiters| < c.maxQueue
      && |pc.waiters * OwnerNames(s.leases, pr.owner)| < c.maxPerOwner
      && t == Put(s, p, pr.(pc := Admitted(pc.waiters)))
    case Reject =>
      && pc.Busy? && pr.lease.None?
      && (|pc.waiters| >= c.maxQueue
          || |pc.waiters * OwnerNames(s.leases, pr.owner)| >= c.maxPerOwner)
      && t == Put(s, p, pr.(pc := Quit, inQueue := false)).(queue := None)
    case _ => false
  }

  // The new lease file is created, locked and filled in.
  ghost predicate LeaseStep(s: State, p: Pid, a: Action, t: State)
    requires p in s.procs
  {
    var pr := s.procs[p];
    var pc := pr.pc;
    match a
    case Create(n) =>
      // the nanoseconds and the 64 random bits in a name make it new
      && pc.Admitted? && n !in s.used
      && t == Put(s, p, pr.(pc := Created(n))).(
                leases := s.leases[n := Lease(None, None)], used := s.used + {n})
    case LockLease =>
      && pc.Created?
      && t == Put(s, p, pr.(pc := Filling, lease := Some(pc.name))).(
                leases := s.leases[pc.name := Lease(Some(p), None)])
    case FillLease =>
      && pc.Filling? && pr.lease.Some?
      && t == Put(s, p, pr.(pc := Leave)).(
                leases := s.leases[pr.lease.value := Lease(Some(p), Some(pr.owner))])
    case FillFails =>
      // the half-written file stays behind, unlocked
      && pc.Filling? && pr.lease.Some?
      && t == Put(s, p, pr.(pc := Quit, inQueue := false, lease := None)).(
                queue := None, leases := FreedLease(s.leases, pr.lease.value))
    case _ => false
  }

  // Waiting for the next poll, or leaving without a permit.
  ghost predicate WaitStep(s: State, p: Pid, a: Action, t: State)
    requires p in s.procs
  {
    var pr := s.procs[p];
    var pc := pr.pc;
    match a
    case LeaveQueued =>
      pc.Leave? && t == Put(s, p, pr.(pc := Polled, inQueue := false)).(queue := None)
    case TimeOut => pc.Polled? && t == Put(s, p, pr.(pc := Quit))
    case Again => pc.Polled? && t == Put(s, p, pr.(pc := Outside))
    case EnterFails => pc.Outside? && t == Put(s, p, pr.(pc := Quit))
    case QuitFree =>
      && pc.Quit? && pr.lease.Some?
      && t == Put(s, p, pr.(pc := Removing(pr.lease.value), lease := None)).(
                leases := FreedLease(s.leases, pr.lease.value))
    case QuitErase => pc.Removing? && t == Gone(s, p).(leases := Without(s.leases, pc.name))
    case QuitPlain => pc.Quit? && pr.lease.None? && t == Gone(s, p)
    case _ => false
  }

  // The supervised child.
  ghost predicate JobStep(s: State, p: Pid, a: Action, t: State)
    requires p in s.procs
  {
    var pr := s.procs[p];
    var pc := pr.pc;
    match a
    case Spawn(k) =>
      && pc.Ready? && pr.slot.Some? && k !in s.kids
      && t == Put(s, p, pr.(pc := Spawned(k))).(
                kids := s.kids + {k}, tenant := s.tenant[k := pr.slot.value], lost := s.lost - {k})
    case SpawnFails => pc.Ready? && t == Put(s, p, pr.(pc := Closing))
    case MarkRunning =>
      && pc.Spawned? && pr.slot.Some?
      && t == Put(s, p, pr.(pc := Attached(pc.child))).(active := s.active[pr.slot.value := Running(p, pc.child)])
    case MarkRunningFails(written) =>
      // ChildCleanup kills and reaps the child before the permit is dropped
      && pc.Spawned? && pr.slot.Some?
      && t == Put(s, p, pr.(pc := Closing)).(
                kids := s.kids - {pc.child},
                active := if written then s.active[pr.slot.value := Running(p, pc.child)] else s.active)
    case Reap => pc.Attached? && pc.child !in s.kids && t == Put(s, p, pr.(pc := Closing))
    case ReapByForce =>
      pc.Attached? && t == Put(s, p, pr.(pc := Closing)).(kids := s.kids - {pc.child})
    case _ => false
  }

  // Permit::drop, and the slot_locked probe made outside any other lock.
  ghost predicate DropStep(s: State, p: Pid, a: Action, t: State)
    requires p in s.procs
  {
    var pr := s.procs[p];
    var pc := pr.pc;
    match a
    case Unmark =>
      && pc.Closing? && pr.slot.Some?
      && t == Put(s, p, pr.(pc := Unmarked)).(active := Without(s.active, pr.slot.value))
    case UnmarkFails => pc.Closing? && t == Put(s, p, pr.(pc := Unmarked))
    case UnlockSlot =>
      && pc.Unmarked? && pr.slot.Some?
      && t == Put(s, p, pr.(pc := Quit, inQueue := false, slot := None)).(
                locks := Without(s.locks, pr.slot.value), queue := if pr.inQueue then None else s.queue)
    case ProbeLock =>
      && pc.ProbeWait? && pc.target !in s.locks
      && t == Put(s, p, pr.(pc := Probing, slot := Some(pc.target))).(locks := s.locks[pc.target := p])
    case ProbeBusy => pc.ProbeWait? && pc.target in s.locks && t == Gone(s, p)
    case ProbeDone =>
      pc.Probing? && pr.slot.Some? && t == Gone(s, p).(locks := Without(s.locks, pr.slot.value))
    case _ => false
  }

  // drain and resume; every administrator takes and drops the queue lock.
  ghost predicate DrainStep(s: State, p: Pid, a: Action, t: State)
    requires p in s.procs
  {
    var pr := s.procs[p];
    var pc := pr.pc;
    match a
    case Enter =>
      && s.queue == None && (pc.DrainWait? || pc.CapWait?)
      && t == Put(s, p, pr.(inQueue := true,
                            pc := if pc.DrainWait? then DrainIn(pc.enabled) else CapIn(pc.wanted))).(
                queue := Some(p))
    case SetDrain => pc.DrainIn? && t == Put(s, p, pr.(pc := AdminLeave)).(drain := pc.enabled)
    case AdminFails =>
      && (pc.DrainIn? || pc.CapIn? || pc.CapCount? || pc.CapList?)
      && t == Put(s, p, pr.(pc := AdminLeave))
    case AdminDone => pc.AdminLeave? && t == Gone(s, p).(queue := None)
    case _ => false
  }

  // set-capacity checks that the pool is drained and idle.
  ghost predicate IdleStep(s: State, p: Pid, a: Action, t: State)
    requires p in s.procs
  {
    var pr := s.procs[p];
    var pc := pr.pc;
    match a
    case CheckDrain =>
      && pc.CapIn? && s.drain && 1 <= pc.wanted <= 2
      && t == Put(s, p, pr.(pc := CapCount(pc.wanted, 0)))
    case CountSlot =>
      && pc.CapCount? && pc.upto < 2 && pc.upto !in s.active
      && t == Put(s, p, pr.(pc := CapCount(pc.wanted, pc.upto + 1)))
    case CountDone => pc.CapCount? && pc.upto == 2 && t == Put(s, p, pr.(pc := CapList(pc.wanted)))
    case CheckIdle => pc.CapList? && s.leases == map[] && t == Put(s, p, pr.(pc := CapIdle(pc.wanted)))
    case _ => false
  }

  // set-capacity writes the capacity, and takes it back when the config is not saved.
  ghost predicate CapacityStep(s: State, p: Pid, a: Action, t: State)
    requires p in s.procs
  {
    var pr := s.procs[p];
    var pc := pr.pc;
    match a
    case WriteCapacity =>
      pc.CapIdle? && t == Put(s, p, pr.(pc := CapWritten(s.capacity))).(capacity := pc.wanted)
    case WriteCapacityFails(written) =>
      && pc.CapIdle?
      && t == Put(s, p, pr.(pc := AdminLeave)).(capacity := if written then pc.wanted else s.capacity)
    case Persisted => pc.CapWritten? && t == Put(s, p, pr.(pc := AdminLeave))
    case RolledBack =>
      pc.CapWritten? && t == Put(s, p, pr.(pc := AdminLeave)).(capacity := pc.previous)
    case RollbackFails(written) =>
      && pc.CapWritten?
      && t == Put(s, p, pr.(pc := AdminLeave)).(capacity := if written then pc.previous else s.capacity)
    case _ => false
  }

  // Steps that start a process or need none.
  ghost predicate FreeStep(s: State, p: Pid, a: Action, t: State) {
    match a
    case StartRun(owner) => p !in s.procs && t == Put(s, p, Proc(owner, false, None, None, Outside))
    case StartDrain(on) => p !in s.procs && t == Put(s, p, Proc(0, false, None, None, DrainWait(on)))
    case StartCapacity(n) => p !in s.procs && t == Put(s, p, Proc(0, false, None, None, CapWait(n)))
    case StartProbe(x) => p !in s.procs && t == Put(s, p, Proc(0, false, None, None, ProbeWait(x)))
    case ChildExits(k) => t == s.(kids := s.kids - {k})
    case Scribble(x) => x in s.active && t == s.(active := s.active[x := Corrupt])
    case _ => false
  }

  // Scheduler::acquire.
  ghost predicate PollStep(c: Config, s: State, p: Pid, a: Action, t: State)
    requires p in s.procs
  {
    || PruneStep(s, p, a, t) || GateStep(s, p, a, t) || ScanStep(s, p, a, t) || GrantStep(s, p, a, t)
    || AdmitStep(c, s, p, a, t) || LeaseStep(s, p, a, t) || WaitStep(s, p, a, t)
  }

  // A permit, an administrator, or a SIGKILL.
  ghost predicate PermitStep(s: State, p: Pid, a: Action, t: State)
    requires p in s.procs
  {
    || JobStep(s, p, a, t) || DropStep(s, p, a, t)
    || DrainStep(s, p, a, t) || IdleStep(s, p, a, t) || CapacityStep(s, p, a, t)
    || (a == Crash && t == AfterCrash(s, p))
  }

  // One step of process p (or of the environment) in state s, ending in t.
  ghost predicate Next(c: Config, s: State, p: Pid, a: Action, t: State) {
    || FreeStep(s, p, a, t)
    || (p in s.procs && (PollStep(c, s, p, a, t) || PermitStep(s, p, a, t)))
  }

  // A freshly initialised runtime directory.
  ghost predicate Init(c: Config, s: State) {
    && s.procs == map[] && s.queue == None && s.locks == map[] && s.active == map[]
    && s.leases == map[] && s.used == {} && 1 <= s.capacity <= 2
    && s.kids == {} && s.tenant == map[] && s.lost == {}
    && c.maxQueue >= 1
  }
}
