// What every step of the slot protocol keeps, proved by rely and guarantee: each
// process owns a local invariant (MineOk), a step of one process keeps its own
// invariant and promises the others a Guarantee, and the Guarantee is all the
// others need to keep theirs.
module ProtocolInvariant {
  import opened Wrappers
  import opened Protocol

  // ---- the invariant of one process ---------------------------------------

  // What the program counter says about the open files.
  predicate ShapeOk(pr: Proc) {
    match pr.pc
    case Closing | Unmarked => pr.slot.Some? && pr.lease.None?
    case Won => pr.slot.Some? && pr.inQueue
    case Unlisting(_) | Cleared | Marked => pr.slot.Some? && pr.inQueue && pr.lease.None?
    case Ready | Spawned(_) | Attached(_) | Probing => pr.slot.Some? && !pr.inQueue && pr.lease.None?
    case Outside | Polled | Quit => pr.slot.None? && !pr.inQueue
    case Removing(_) | DrainWait(_) | CapWait(_) | ProbeWait(_) =>
      pr.slot.None? && !pr.inQueue && pr.lease.None?
    case Admitted(_) | Created(_) | DrainIn(_) | CapIn(_) | CapCount(_, _) | CapList(_) | CapIdle(_)
      | CapWritten(_) | AdminLeave => pr.slot.None? && pr.inQueue && pr.lease.None?
    case Filling => pr.slot.None? && pr.inQueue && pr.lease.Some?
    case _ => pr.slot.None? && pr.inQueue
  }

  ghost predicate OwnsSlot(s: State, q: Pid, x: Slot) {
    x in s.locks && s.locks[x] == q
  }

  ghost predicate OwnsLease(s: State, q: Pid, n: Name) {
    n in s.leases && s.leases[n].lock == Some(q)
  }

  // The files a process holds locked are exactly the ones locked in its name.
  ghost predicate LocksOk(s: State, p: Pid) {
    && (s.queue == Some(p) <==> p in s.procs && s.procs[p].inQueue)
    && (forall x: Slot :: OwnsSlot(s, p, x) ==> p in s.procs && s.procs[p].slot == Some(x))
    && (forall n: Name :: OwnsLease(s, p, n) ==> p in s.procs && s.procs[p].lease == Some(n))
    && (p in s.procs ==>
          && (s.procs[p].slot.Some? ==> OwnsSlot(s, p, s.procs[p].slot.value))
          && (s.procs[p].lease.Some? ==> OwnsLease(s, p, s.procs[p].lease.value)))
  }

  ghost predicate Removes(s: State, p: Pid, n: Name) {
    p in s.procs && s.procs[p].pc == Removing(n)
  }

  ghost predicate Unlocked(s: State, n: Name) {
    n in s.leases ==> s.leases[n].lock.None?
  }

  ghost predicate LeaseOk(s: State, p: Pid)
    requires p in s.procs
  {
    var pr := s.procs[p];
    && (pr.lease.Some? && !pr.pc.Filling? ==>
          pr.lease.value in s.leases && s.leases[pr.lease.value].owner == Some(pr.owner))
    && match pr.pc
       case Created(n) =>
         n in s.leases && s.leases[n] == Lease(None, None) && forall q :: !Removes(s, q, n)
       case Filling => pr.lease.Some? && pr.lease.value in s.leases && s.leases[pr.lease.value].owner.None?
       case Unlisting(n) => Unlocked(s, n)
       case Removing(n) => Unlocked(s, n) && n in s.used
       case PruneHit(_, _, n) => Unlocked(s, n)
       case _ => true
  }

  // What a listing still says about the waiters directory, and the room that
  // admission found.
  ghost predicate ListingOk(c: Config, s: State, p: Pid)
    requires p in s.procs
  {
    var pr := s.procs[p];
    match pr.pc
    case Prune(all, todo) => s.leases.Keys <= all <= s.used && |all| <= c.maxQueue && todo <= all
    case PruneHit(all, todo, n) =>
      s.leases.Keys <= all <= s.used && |all| <= c.maxQueue && todo <= all && n in all
    case Scan(w, _, _, _) => s.leases.Keys <= w && |w| <= c.maxQueue && MayTry(pr.lease, w)
    case Probe(w, _, _, _, _) => s.leases.Keys <= w && |w| <= c.maxQueue && MayTry(pr.lease, w)
    case TryLock(w, _, _, _) => s.leases.Keys <= w && |w| <= c.maxQueue && MayTry(pr.lease, w)
    case Busy(w) => s.leases.Keys <= w && |w| <= c.maxQueue
    case Admitted(w) =>
      s.leases.Keys <= w && |w| < c.maxQueue && |OwnerNames(s.leases, pr.owner)| < c.maxPerOwner
    case Created(_) => |OwnerNames(s.leases, pr.owner)| < c.maxPerOwner
    case Filling => |OwnerNames(s.leases, pr.owner)| < c.maxPerOwner
    case _ => true
  }

  // Between the drain check and the end of the critical section.
  predicate Polling(pc: Pc) {
    pc.List? || pc.Scan? || pc.Probe? || pc.TryLock? || pc.Won? || pc.Unlisting? || pc.Cleared?
    || pc.Marked? || pc.Busy? || pc.Admitted? || pc.Created? || pc.Filling? || pc.Leave?
  }

  // Process p holds slot x and its metadata file must be in place.
  ghost predicate Seat(s: State, p: Pid, x: Slot) {
    && p in s.procs && s.procs[p].slot == Some(x)
    && (s.procs[p].pc.Marked? || s.procs[p].pc.Ready? || s.procs[p].pc.Spawned? || s.procs[p].pc.Attached?)
  }

  ghost predicate SlotOk(s: State, p: Pid)
    requires p in s.procs
  {
    var pr := s.procs[p];
    && (Polling(pr.pc) ==> !s.drain)
    && match pr.pc
       case Scan(_, cap, _, k) => cap == s.capacity && k <= cap
       case Probe(_, cap, start, k, seen) =>
         && cap == s.capacity && 0 <= k < cap && !seen.Corrupt?
         && forall q :: Seat(s, q, SlotAt(cap, start, k)) ==> q == seen.sup
       case TryLock(_, cap, start, k) =>
         cap == s.capacity && 0 <= k < cap && SlotAt(cap, start, k) !in s.active
       case Won => pr.slot.Some? ==> pr.slot.value !in s.active && pr.slot.value < s.capacity
       case Unlisting(_) => pr.slot.Some? ==> pr.slot.value !in s.active && pr.slot.value < s.capacity
       case Cleared => pr.slot.Some? ==> pr.slot.value !in s.active && pr.slot.value < s.capacity
       case Marked => pr.slot.Some? ==> Begun(s, p, pr.slot.value)
       case Ready => pr.slot.Some? ==> Begun(s, p, pr.slot.value)
       case Spawned(_) => pr.slot.Some? ==> Begun(s, p, pr.slot.value)
       case Attached(k) =>
         pr.slot.Some? ==> pr.slot.value in s.active
                           && (s.active[pr.slot.value] == Corrupt || s.active[pr.slot.value] == Running(p, k))
       case CapCount(n, upto) => s.drain && 1 <= n <= 2 && upto <= 2 && forall x :: 0 <= x < upto ==> x !in s.active
       case CapList(n) => s.drain && 1 <= n <= 2 && s.active.Keys == {}
       case CapIdle(n) => s.drain && 1 <= n <= 2 && s.active.Keys == {} && s.leases.Keys == {}
       case CapWritten(n) => s.drain && 1 <= n <= 2 && s.active.Keys == {} && s.leases.Keys == {}
       case _ => true
  }

  ghost predicate Begun(s: State, p: Pid, x: Slot) {
    x in s.active && (s.active[x] == Corrupt || s.active[x] == Starting(p))
  }

  ghost predicate Named(s: State, p: Pid, x: Slot) {
    x in s.active && (s.active[x].Corrupt? || s.active[x].sup == p)
  }

  ghost predicate Local(c: Config, s: State, p: Pid) {
    p in s.procs && ShapeOk(s.procs[p]) && LeaseOk(s, p) && ListingOk(c, s, p) && SlotOk(s, p)
  }

  ghost predicate MineOk(c: Config, s: State, p: Pid) {
    LocksOk(s, p) && (p in s.procs ==> Local(c, s, p))
  }

  // ---- what a step of p promises everyone else ----------------------------

  ghost predicate KeepsProcs(s: State, p: Pid, t: State) {
    forall q {:trigger q in t.procs} {:trigger q in s.procs} :: q != p ==>
      (q in t.procs <==> q in s.procs) && (q in s.procs ==> t.procs[q] == s.procs[q])
  }

  ghost predicate KeepsLocks(s: State, p: Pid, t: State) {
    && (forall q :: q != p ==> (t.queue == Some(q) <==> s.queue == Some(q)))
    && (forall q, x {:trigger OwnsSlot(s, q, x)} {:trigger OwnsSlot(t, q, x)} :: q != p ==>
          (OwnsSlot(t, q, x) <==> OwnsSlot(s, q, x)))
  }

  ghost predicate KeepsLeases(s: State, p: Pid, t: State) {
    forall q, n {:trigger OwnsLease(s, q, n)} {:trigger OwnsLease(t, q, n)} :: q != p ==>
      (OwnsLease(t, q, n) <==> OwnsLease(s, q, n))
      && (OwnsLease(s, q, n) ==> t.leases[n] == s.leases[n])
  }

  // Outside the queue lock nothing is added.
  ghost predicate OnlyShrinks(s: State, p: Pid, t: State) {
    && t.drain == s.drain && t.capacity == s.capacity
    && t.active.Keys <= s.active.Keys
    && t.leases.Keys <= s.leases.Keys
    && (forall n :: n in t.leases ==>
          t.leases[n].owner == s.leases[n].owner && (s.leases[n].lock.None? ==> t.leases[n].lock.None?))
    && (forall n :: n in s.leases && n !in t.leases ==> Removes(s, p, n))
    && (forall x :: Seat(t, p, x) ==> Seat(s, p, x))
  }

  ghost predicate KeepsFiles(s: State, p: Pid, t: State) {
    && (forall q, x :: q != p && OwnsSlot(s, q, x) && x in t.active ==>
          x in s.active && (t.active[x] == s.active[x] || t.active[x].Corrupt?))
    && (forall q, x :: q != p && Seat(s, q, x) ==> x in t.active)
    && (forall n :: Removes(t, p, n) ==> Removes(s, p, n) || OwnsLease(s, p, n))
    && (forall q, n :: q != p && Removes(s, q, n) && !Unlocked(t, n) ==> !Unlocked(s, n))
  }

  ghost predicate Guarantee(s: State, p: Pid, t: State) {
    && KeepsProcs(s, p, t) && KeepsLocks(s, p, t) && KeepsLeases(s, p, t) && s.used <= t.used
    && (s.queue != Some(p) ==> OnlyShrinks(s, p, t))
    && KeepsFiles(s, p, t)
  }

  lemma OwnerNamesShrink(a: map<Name, Lease>, b: map<Name, Lease>, o: Owner)
    requires forall n :: n in b ==> n in a && b[n].owner == a[n].owner
    ensures |OwnerNames(b, o)| <= |OwnerNames(a, o)|
  {
    SubsetSize(OwnerNames(b, o), OwnerNames(a, o));
  }

  lemma {:induction false} SubsetSize<T>(a: set<T>, b: set<T>)
    requires a <= b
    ensures |a| <= |b|
  {
    assert b == a + (b - a);
  }

  lemma OthersKeepLocks(s: State, p: Pid, t: State, q: Pid)
    requires q != p && LocksOk(s, q) && Guarantee(s, p, t)
    ensures LocksOk(t, q)
  {
  }

  lemma OthersKeepLease(s: State, p: Pid, t: State, q: Pid)
    requires q != p && q in s.procs && LocksOk(s, q) && LeaseOk(s, q) && ShapeOk(s.procs[q]) && Guarantee(s, p, t)
    ensures LeaseOk(t, q)
  {
    match s.procs[q].pc
    case Removing(n) => assert Removes(s, q, n);
    case Created(n) =>
      forall r ensures !Removes(t, r, n) {
        assert !Removes(s, r, n);
      }
    case _ =>
  }

  lemma OthersKeepListing(c: Config, s: State, p: Pid, t: State, q: Pid)
    requires q != p && q in s.procs && LocksOk(s, q) && ListingOk(c, s, q) && ShapeOk(s.procs[q]) && Guarantee(s, p, t)
    ensures ListingOk(c, t, q)
  {
    if s.procs[q].inQueue {
      OwnerNamesShrink(s.leases, t.leases, s.procs[q].owner);
    }
  }

  lemma OthersKeepSlot(s: State, p: Pid, t: State, q: Pid)
    requires q != p && q in s.procs && LocksOk(s, q) && SlotOk(s, q) && ShapeOk(s.procs[q]) && Guarantee(s, p, t)
    ensures SlotOk(t, q)
  {
    if s.procs[q].slot.Some? {
      assert Seat(s, q, s.procs[q].slot.value) ==> s.procs[q].slot.value in t.active;
    }
    if s.procs[q].pc.Probe? {
      var pc := s.procs[q].pc;
      var x := SlotAt(pc.cap, pc.start, pc.k);
      forall r | Seat(t, r, x) ensures r == pc.seen.sup {
        assert Seat(s, r, x);
      }
    }
  }

  lemma OthersKeep(c: Config, s: State, p: Pid, t: State, q: Pid)
    requires q != p && MineOk(c, s, q) && Guarantee(s, p, t)
    ensures MineOk(c, t, q)
  {
    OthersKeepLocks(s, p, t, q);
    if q in s.procs {
      OthersKeepLease(s, p, t, q);
      OthersKeepListing(c, s, p, t, q);
      OthersKeepSlot(s, p, t, q);
    }
  }
  // ---- kinds of step -------------------------------------------------------

  // What the local invariants of all processes say together.
  ghost predicate Facts(s: State) {
    && (forall q, x :: Seat(s, q, x) ==> Named(s, q, x) && OwnsSlot(s, q, x))
    && (forall q, n :: Removes(s, q, n) ==> n in s.used)
  }

  ghost predicate SharedOk(c: Config, s: State) {
    && 1 <= s.capacity <= 2
    && (forall x :: x in s.active ==> x < s.capacity)
    && s.leases.Keys <= s.used
    && |s.leases| <= c.maxQueue
    && (forall o :: |OwnerNames(s.leases, o)| <= c.maxPerOwner)
  }

  ghost predicate Base(c: Config, s: State, p: Pid) {
    p in s.procs && LocksOk(s, p) && Facts(s) && SharedOk(c, s)
  }

  ghost predicate Kept(c: Config, s: State, p: Pid, t: State) {
    LocksOk(t, p) && Guarantee(s, p, t) && SharedOk(c, t)
  }

  predicate SeatPc(pc: Pc) {
    pc.Marked? || pc.Ready? || pc.Spawned? || pc.Attached?
  }

  // Only p moves; it does not start to remove a lease and, outside the queue
  // lock, takes no seat.
  ghost predicate Moves(s: State, p: Pid, t: State) {
    && p in s.procs && p in t.procs && t.procs == s.procs[p := t.procs[p]]
    && !t.procs[p].pc.Removing?
    && (SeatPc(t.procs[p].pc) ==> SeatPc(s.procs[p].pc) || s.procs[p].inQueue)
  }

  ghost predicate SameLocks(s: State, t: State) {
    t.queue == s.queue && t.locks == s.locks
  }

  ghost predicate SameLeases(s: State, t: State) {
    t.leases == s.leases && t.used == s.used
  }

  ghost predicate SameSlots(s: State, t: State) {
    t.active == s.active && t.drain == s.drain && t.capacity == s.capacity
  }

  ghost predicate SameHolds(s: State, p: Pid, t: State)
    requires p in s.procs && p in t.procs
  {
    && t.procs[p].inQueue == s.procs[p].inQueue && t.procs[p].lease == s.procs[p].lease
    && t.procs[p].slot == s.procs[p].slot
  }

  lemma Quiet(c: Config, s: State, p: Pid, t: State)
    requires Base(c, s, p) && Moves(s, p, t) && SameHolds(s, p, t)
    requires SameLocks(s, t) && SameLeases(s, t) && SameSlots(s, t)
    ensures Kept(c, s, p, t)
  {
  }

  lemma QueueOut(c: Config, s: State, p: Pid, t: State)
    requires Base(c, s, p) && Moves(s, p, t) && s.procs[p].inQueue
    requires t.procs[p] == s.procs[p].(pc := t.procs[p].pc, inQueue := false)
    requires t.queue == None && t.locks == s.locks && SameLeases(s, t) && SameSlots(s, t)
    ensures Kept(c, s, p, t)
  {
  }

  lemma QueueIn(c: Config, s: State, p: Pid, t: State)
    requires Base(c, s, p) && Moves(s, p, t) && s.queue == None
    requires t.procs[p] == s.procs[p].(pc := t.procs[p].pc, inQueue := true) && !SeatPc(t.procs[p].pc)
    requires t.queue == Some(p) && t.locks == s.locks && SameLeases(s, t) && SameSlots(s, t)
    ensures Kept(c, s, p, t)
  {
  }

  lemma LeaseErased(c: Config, s: State, p: Pid, n: Name, t: State)
    requires Base(c, s, p) && Moves(s, p, t) && SameHolds(s, p, t) && s.procs[p].inQueue
    requires Unlocked(s, n) && t.leases == Without(s.leases, n) && t.used == s.used
    requires SameLocks(s, t) && SameSlots(s, t)
    ensures Kept(c, s, p, t)
  {
    SharedLeases(c, s, t);
  }

  // Lease files only go away or lose their lock.
  lemma SharedLeases(c: Config, s: State, t: State)
    requires SharedOk(c, s) && SameSlots(s, t) && s.used <= t.used
    requires t.leases.Keys <= s.leases.Keys
    requires forall n :: n in t.leases ==> t.leases[n].owner == s.leases[n].owner
    ensures SharedOk(c, t)
  {
    SubsetSize(t.leases.Keys, s.leases.Keys);
    forall o ensures |OwnerNames(t.leases, o)| <= c.maxPerOwner {
      OwnerNamesShrink(s.leases, t.leases, o);
    }
  }

  // p unlocks its lease, and may leave the queue lock with it.
  ghost predicate Frees(s: State, p: Pid, n: Name, t: State) {
    && p in s.procs && p in t.procs && t.procs == s.procs[p := t.procs[p]]
    && s.procs[p].lease == Some(n) && t.procs[p].lease == None
    && t.procs[p].slot == s.procs[p].slot && !SeatPc(t.procs[p].pc)
    && (t.procs[p].pc.Removing? ==> t.procs[p].pc.name == n)
    && t.leases == FreedLease(s.leases, n) && t.used == s.used
    && t.locks == s.locks && SameSlots(s, t)
    && ((t.queue == s.queue && t.procs[p].inQueue == s.procs[p].inQueue)
        || (t.queue == None && s.procs[p].inQueue && !t.procs[p].inQueue))
  }

  lemma FreesGuarantee(c: Config, s: State, p: Pid, n: Name, t: State)
    requires Base(c, s, p) && Frees(s, p, n, t)
    ensures Guarantee(s, p, t)
  {
  }

  lemma FreesLocks(c: Config, s: State, p: Pid, n: Name, t: State)
    requires Base(c, s, p) && Frees(s, p, n, t)
    ensures LocksOk(t, p)
  {
  }

  lemma LeaseFreed(c: Config, s: State, p: Pid, n: Name, t: State)
    requires Base(c, s, p) && Frees(s, p, n, t)
    ensures Kept(c, s, p, t)
  {
    FreesGuarantee(c, s, p, n, t);
    FreesLocks(c, s, p, n, t);
    SharedLeases(c, s, t);
  }

  // The process is gone and the kernel has released what it held.
  ghost predicate Released(s: State, p: Pid, t: State)
    requires p in s.procs
  {
    && t.procs == Without(s.procs, p)
    && t.queue == (if s.procs[p].inQueue then None else s.queue)
    && t.locks == (if s.procs[p].slot.Some? then Without(s.locks, s.procs[p].slot.value) else s.locks)
    && t.leases == (if s.procs[p].lease.Some? then FreedLease(s.leases, s.procs[p].lease.value) else s.leases)
    && t.used == s.used && SameSlots(s, t)
  }

  lemma ReleasedHoldsNothing(c: Config, s: State, p: Pid, t: State)
    requires Base(c, s, p) && Released(s, p, t)
    ensures LocksOk(t, p)
  {
    forall n: nat ensures !OwnsLease(t, p, n) && !OwnsSlot(t, p, n) {
      assert OwnsLease(s, p, n) ==> s.procs[p].lease == Some(n);
      assert OwnsSlot(s, p, n) ==> s.procs[p].slot == Some(n);
    }
  }

  lemma Departed(c: Config, s: State, p: Pid, t: State)
    requires Base(c, s, p) && Released(s, p, t)
    ensures Kept(c, s, p, t)
  {
    ReleasedHoldsNothing(c, s, p, t);
    SharedLeases(c, s, t);
  }

  lemma DepartedErasing(c: Config, s: State, p: Pid, t: State)
    requires Base(c, s, p) && t.procs == Without(s.procs, p) && s.procs[p].pc.Removing?
    requires s.procs[p] == Proc(s.procs[p].owner, false, None, None, s.procs[p].pc) && Unlocked(s, s.procs[p].pc.name)
    requires SameLocks(s, t) && t.leases == Without(s.leases, s.procs[p].pc.name) && t.used == s.used && SameSlots(s, t)
    ensures Kept(c, s, p, t)
  {
    assert Removes(s, p, s.procs[p].pc.name);
    forall n: nat ensures !OwnsLease(t, p, n) && !OwnsSlot(t, p, n) {
      assert !OwnsLease(s, p, n) && !OwnsSlot(s, p, n);
    }
    SharedLeases(c, s, t);
  }

  lemma SlotTaken(c: Config, s: State, p: Pid, x: Slot, t: State)
    requires Base(c, s, p) && Moves(s, p, t) && !SeatPc(t.procs[p].pc)
    requires s.procs[p].slot == None && t.procs[p] == s.procs[p].(pc := t.procs[p].pc, slot := Some(x))
    requires x !in s.locks && t.locks == s.locks[x := p] && t.queue == s.queue
    requires SameLeases(s, t) && SameSlots(s, t)
    ensures Kept(c, s, p, t)
  {
  }

  lemma SlotGiven(c: Config, s: State, p: Pid, t: State)
    requires Base(c, s, p) && Moves(s, p, t) && !SeatPc(t.procs[p].pc) && s.procs[p].slot.Some?
    requires t.procs[p] == s.procs[p].(pc := t.procs[p].pc, slot := None, inQueue := false)
    requires t.locks == Without(s.locks, s.procs[p].slot.value)
    requires t.queue == if s.procs[p].inQueue then None else s.queue
    requires SameLeases(s, t) && SameSlots(s, t)
    ensures Kept(c, s, p, t)
  {
  }

  // p writes or overwrites the metadata of its own slot.
  lemma MetaWritten(c: Config, s: State, p: Pid, x: Slot, m: Meta, t: State)
    requires Base(c, s, p) && Moves(s, p, t) && SameHolds(s, p, t) && OwnsSlot(s, p, x)
    requires x in s.active || (s.procs[p].inQueue && x < s.capacity)
    requires t.active == s.active[x := m] && t.drain == s.drain && t.capacity == s.capacity
    requires SameLocks(s, t) && SameLeases(s, t)
    ensures Kept(c, s, p, t)
  {
  }

  // The metadata of a slot nobody else sits on goes away.
  lemma MetaErased(c: Config, s: State, p: Pid, x: Slot, t: State)
    requires Base(c, s, p) && Moves(s, p, t) && SameHolds(s, p, t)
    requires forall q: Pid :: q != p ==> !Seat(s, q, x)
    requires t.active == Without(s.active, x) && t.drain == s.drain && t.capacity == s.capacity
    requires SameLocks(s, t) && SameLeases(s, t)
    ensures Kept(c, s, p, t)
  {
  }

  lemma OwnerNamesGrow(a: map<Name, Lease>, b: map<Name, Lease>, n: Name, o: Owner)
    requires forall m :: m in b && m != n ==> m in a && b[m] == a[m]
    requires n in b && (n in a ==> a[n].owner.None?)
    ensures |OwnerNames(b, o)| <= |OwnerNames(a, o)| + if b[n].owner == Some(o) then 1 else 0
  {
    var more := OwnerNames(a, o) + if b[n].owner == Some(o) then {n} else {};
    forall m | m in OwnerNames(b, o) ensures m in more {
    }
    SubsetSize(OwnerNames(b, o), more);
  }

  lemma LeaseAdded(c: Config, s: State, p: Pid, n: Name, t: State)
    requires Base(c, s, p) && Moves(s, p, t) && SameHolds(s, p, t) && s.procs[p].inQueue
    requires n !in s.leases && |s.leases| < c.maxQueue
    requires t.leases == s.leases[n := Lease(None, None)] && t.used == s.used + {n}
    requires SameLocks(s, t) && SameSlots(s, t)
    ensures Kept(c, s, p, t)
  {
    forall o ensures |OwnerNames(t.leases, o)| <= c.maxPerOwner {
      OwnerNamesGrow(s.leases, t.leases, n, o);
    }
  }

  // p locks its new lease file, or fills in its owner.
  lemma LeaseWritten(c: Config, s: State, p: Pid, n: Name, l: Lease, t: State)
    requires Base(c, s, p) && Moves(s, p, t) && s.procs[p].inQueue
    requires t.procs[p] == s.procs[p].(pc := t.procs[p].pc, lease := Some(n))
    requires n in s.leases && s.leases[n].owner.None?
    requires s.procs[p].lease == Some(n) || (s.procs[p].lease == None && s.leases[n].lock == None
                                             && forall q: Pid :: !Removes(s, q, n))
    requires l.lock == Some(p)
          && (l.owner == None || (l.owner.Some? && |OwnerNames(s.leases, l.owner.value)| < c.maxPerOwner))
    requires t.leases == s.leases[n := l] && t.used == s.used
    requires SameLocks(s, t) && SameSlots(s, t)
    ensures Kept(c, s, p, t)
  {
    forall o ensures |OwnerNames(t.leases, o)| <= c.maxPerOwner {
      OwnerNamesGrow(s.leases, t.leases, n, o);
    }
  }

  lemma Administered(c: Config, s: State, p: Pid, t: State)
    requires Base(c, s, p) && Moves(s, p, t) && SameHolds(s, p, t) && s.procs[p].inQueue
    requires t.capacity == s.capacity || (1 <= t.capacity <= 2 && s.active.Keys == {})
    requires SameLocks(s, t) && SameLeases(s, t) && t.active == s.active
    ensures Kept(c, s, p, t)
  {
  }

  lemma Started(c: Config, s: State, p: Pid, owner: Owner, pc: Pc, t: State)
    requires p !in s.procs && LocksOk(s, p) && Facts(s) && SharedOk(c, s)
    requires t == Put(s, p, Proc(owner, false, None, None, pc))
    requires pc.Outside? || pc.DrainWait? || pc.CapWait? || pc.ProbeWait?
    ensures Kept(c, s, p, t)
  {
  }

  // ---- the steps ----------------------------------------------------------

  ghost predicate Sound(c: Config, s: State, p: Pid) {
    p in s.procs && MineOk(c, s, p) && Facts(s) && SharedOk(c, s)
  }

  // A listing that names a vanished lease has room for it.
  lemma PruneRoom(s: State, n: Name, all: set<Name>)
    requires s.leases.Keys <= all && n in all && n !in s.leases
    ensures |s.leases| < |all|
  {
    SubsetSize(s.leases.Keys, all - {n});
  }

  lemma PruneKeeps(c: Config, s: State, p: Pid, a: Action, t: State)
    requires Sound(c, s, p) && PruneStep(s, p, a, t)
    ensures Kept(c, s, p, t)
  {
    match a
    case Enter => QueueIn(c, s, p, t);
    case ListStale => Quiet(c, s, p, t);
    case PruneSkip(_) => Quiet(c, s, p, t);
    case PruneTake(n) =>
      if n in s.leases {
        Quiet(c, s, p, t);
      } else {
        PruneRoom(s, n, s.procs[p].pc.all);
        LeaseAdded(c, s, p, n, t);
      }
    case PruneRemove => LeaseErased(c, s, p, s.procs[p].pc.name, t);
    case PruneDone => Quiet(c, s, p, t);
  }

  lemma PruneShape(c: Config, s: State, p: Pid, a: Action, t: State)
    requires Sound(c, s, p) && PruneStep(s, p, a, t)
    ensures p in t.procs ==> ShapeOk(t.procs[p]) && LeaseOk(t, p)
  {
  }

  lemma PruneListing(c: Config, s: State, p: Pid, a: Action, t: State)
    requires Sound(c, s, p) && PruneStep(s, p, a, t)
    ensures p in t.procs ==> ListingOk(c, t, p)
  {
  }

  lemma PruneSlot(c: Config, s: State, p: Pid, a: Action, t: State)
    requires Sound(c, s, p) && PruneStep(s, p, a, t)
    ensures p in t.procs ==> SlotOk(t, p)
  {
  }

  lemma PruneLocal(c: Config, s: State, p: Pid, a: Action, t: State)
    requires Sound(c, s, p) && PruneStep(s, p, a, t)
    ensures p in t.procs ==> Local(c, t, p)
  {
    PruneShape(c, s, p, a, t);
    PruneListing(c, s, p, a, t);
    PruneSlot(c, s, p, a, t);
  }

  lemma GateKeeps(c: Config, s: State, p: Pid, a: Action, t: State)
    requires Sound(c, s, p) && GateStep(s, p, a, t)
    ensures Kept(c, s, p, t)
  {
    match a
    case GateShut => QueueOut(c, s, p, t);
    case GateOpen => Quiet(c, s, p, t);
    case ListWaiters => Quiet(c, s, p, t);
    case FailOut => QueueOut(c, s, p, t);
  }

  lemma GateLocal(c: Config, s: State, p: Pid, a: Action, t: State)
    requires Sound(c, s, p) && GateStep(s, p, a, t)
    ensures p in t.procs ==> Local(c, t, p)
  {
  }

  lemma ScanKeeps(c: Config, s: State, p: Pid, a: Action, t: State)
    requires Sound(c, s, p) && ScanStep(s, p, a, t)
    ensures Kept(c, s, p, t)
  {
    var pc := s.procs[p].pc;
    match a
    case ReadAbsent => Quiet(c, s, p, t);
    case ReadPresent => Quiet(c, s, p, t);
    case ReadUnreadable => Quiet(c, s, p, t);
    case ProbeAlive => Quiet(c, s, p, t);
    case ProbeDead => MetaErased(c, s, p, SlotAt(pc.cap, pc.start, pc.k), t);
    case LockSlot => SlotTaken(c, s, p, SlotAt(pc.cap, pc.start, pc.k), t);
    case SlotBusy => Quiet(c, s, p, t);
    case ScanOver => Quiet(c, s, p, t);
  }

  lemma ScanLocal(c: Config, s: State, p: Pid, a: Action, t: State)
    requires Sound(c, s, p) && ScanStep(s, p, a, t)
    ensures p in t.procs ==> Local(c, t, p)
  {
    if a.ReadPresent? {
      var x := SlotAt(s.procs[p].pc.cap, s.procs[p].pc.start, s.procs[p].pc.k);
      forall q | Seat(t, q, x) ensures q == s.active[x].sup {
        assert Seat(s, q, x);
      }
    }
  }

  lemma GrantKeeps(c: Config, s: State, p: Pid, a: Action, t: State)
    requires Sound(c, s, p) && GrantStep(s, p, a, t)
    ensures Kept(c, s, p, t)
  {
    var pr := s.procs[p];
    match a
    case FreeLease => LeaseFreed(c, s, p, pr.lease.value, t);
    case EraseLease => LeaseErased(c, s, p, pr.pc.name, t);
    case KeepNoLease => Quiet(c, s, p, t);
    case MarkStarting => MetaWritten(c, s, p, pr.slot.value, Starting(p), t);
    case MarkStartingFails(written) =>
      if written {
        MetaWritten(c, s, p, pr.slot.value, Starting(p), t);
      } else {
        Quiet(c, s, p, t);
      }
    case LeaveGranted => QueueOut(c, s, p, t);
  }

  lemma GrantLocal(c: Config, s: State, p: Pid, a: Action, t: State)
    requires Local(c, s, p) && GrantStep(s, p, a, t)
    ensures p in t.procs ==> Local(c, t, p)
  {
  }

  lemma AdmitKeeps(c: Config, s: State, p: Pid, a: Action, t: State)
    requires Sound(c, s, p) && AdmitStep(c, s, p, a, t)
    ensures Kept(c, s, p, t)
  {
    match a
    case StayQueued => Quiet(c, s, p, t);
    case Admit => Quiet(c, s, p, t);
    case Reject => QueueOut(c, s, p, t);
  }

  lemma AdmitLocal(c: Config, s: State, p: Pid, a: Action, t: State)
    requires Local(c, s, p) && AdmitStep(c, s, p, a, t)
    ensures p in t.procs ==> Local(c, t, p)
  {
    if a.Admit? {
      assert s.procs[p].pc.waiters * OwnerNames(s.leases, s.procs[p].owner)
          == OwnerNames(s.leases, s.procs[p].owner);
    }
  }

  lemma LeaseKeeps(c: Config, s: State, p: Pid, a: Action, t: State)
    requires Sound(c, s, p) && LeaseStep(s, p, a, t)
    ensures Kept(c, s, p, t)
  {
    var pr := s.procs[p];
    match a
    case Create(n) =>
      SubsetSize(s.leases.Keys, pr.pc.waiters);
      LeaseAdded(c, s, p, n, t);
    case LockLease => LeaseWritten(c, s, p, pr.pc.name, Lease(Some(p), None), t);
    case FillLease => LeaseWritten(c, s, p, pr.lease.value, Lease(Some(p), Some(pr.owner)), t);
    case FillFails => LeaseFreed(c, s, p, pr.lease.value, t);
  }

  lemma LeaseShape(c: Config, s: State, p: Pid, a: Action, t: State)
    requires Sound(c, s, p) && LeaseStep(s, p, a, t)
    ensures p in t.procs ==> ShapeOk(t.procs[p]) && LeaseOk(t, p)
  {
    if a.Create? {
      forall q ensures !Removes(t, q, a.name) {
        assert !Removes(s, q, a.name);
      }
    }
  }

  lemma LeaseListing(c: Config, s: State, p: Pid, a: Action, t: State)
    requires Sound(c, s, p) && LeaseStep(s, p, a, t)
    ensures p in t.procs ==> ListingOk(c, t, p)
  {
    if a.Create? {
      OwnerNamesGrow(s.leases, t.leases, a.name, s.procs[p].owner);
    } else if a.LockLease? {
      OwnerNamesGrow(s.leases, t.leases, s.procs[p].pc.name, s.procs[p].owner);
    }
  }

  lemma LeaseSlot(c: Config, s: State, p: Pid, a: Action, t: State)
    requires Sound(c, s, p) && LeaseStep(s, p, a, t)
    ensures p in t.procs ==> SlotOk(t, p)
  {
  }

  lemma LeaseLocal(c: Config, s: State, p: Pid, a: Action, t: State)
    requires Sound(c, s, p) && LeaseStep(s, p, a, t)
    ensures p in t.procs ==> Local(c, t, p)
  {
    LeaseShape(c, s, p, a, t);
    LeaseListing(c, s, p, a, t);
    LeaseSlot(c, s, p, a, t);
  }

  lemma WaitKeeps(c: Config, s: State, p: Pid, a: Action, t: State)
    requires Sound(c, s, p) && WaitStep(s, p, a, t)
    ensures Kept(c, s, p, t)
  {
    match a
    case LeaveQueued => QueueOut(c, s, p, t);
    case TimeOut => Quiet(c, s, p, t);
    case EnterFails => Quiet(c, s, p, t);
    case Again => Quiet(c, s, p, t);
    case QuitFree => LeaseFreed(c, s, p, s.procs[p].lease.value, t);
    case QuitErase => DepartedErasing(c, s, p, t);
    case QuitPlain => Departed(c, s, p, t);
  }

  lemma WaitShape(c: Config, s: State, p: Pid, a: Action, t: State)
    requires Sound(c, s, p) && WaitStep(s, p, a, t)
    ensures p in t.procs ==> ShapeOk(t.procs[p]) && LeaseOk(t, p)
  {
  }

  lemma WaitListing(c: Config, s: State, p: Pid, a: Action, t: State)
    requires Sound(c, s, p) && WaitStep(s, p, a, t)
    ensures p in t.procs ==> ListingOk(c, t, p) && SlotOk(t, p)
  {
  }

  lemma WaitLocal(c: Config, s: State, p: Pid, a: Action, t: State)
    requires Sound(c, s, p) && WaitStep(s, p, a, t)
    ensures p in t.procs ==> Local(c, t, p)
  {
    WaitShape(c, s, p, a, t);
    WaitListing(c, s, p, a, t);
  }

  lemma JobKeeps(c: Config, s: State, p: Pid, a: Action, t: State)
    requires Sound(c, s, p) && JobStep(s, p, a, t)
    ensures Kept(c, s, p, t)
  {
    var pr := s.procs[p];
    match a
    case Spawn(_) => Quiet(c, s, p, t);
    case SpawnFails => Quiet(c, s, p, t);
    case MarkRunning => MetaWritten(c, s, p, pr.slot.value, Running(p, pr.pc.child), t);
    case MarkRunningFails(written) =>
      if written {
        MetaWritten(c, s, p, pr.slot.value, Running(p, pr.pc.child), t);
      } else {
        Quiet(c, s, p, t);
      }
    case Reap => Quiet(c, s, p, t);
    case ReapByForce => Quiet(c, s, p, t);
  }

  lemma JobShape(c: Config, s: State, p: Pid, a: Action, t: State)
    requires Local(c, s, p) && JobStep(s, p, a, t)
    ensures p in t.procs ==> ShapeOk(t.procs[p]) && LeaseOk(t, p)
  {
  }

  lemma JobListing(c: Config, s: State, p: Pid, a: Action, t: State)
    requires Local(c, s, p) && JobStep(s, p, a, t)
    ensures p in t.procs ==> ListingOk(c, t, p) && SlotOk(t, p)
  {
  }

  lemma JobLocal(c: Config, s: State, p: Pid, a: Action, t: State)
    requires Local(c, s, p) && JobStep(s, p, a, t)
    ensures p in t.procs ==> Local(c, t, p)
  {
    JobShape(c, s, p, a, t);
    JobListing(c, s, p, a, t);
  }

  lemma DropKeeps(c: Config, s: State, p: Pid, a: Action, t: State)
    requires Sound(c, s, p) && DropStep(s, p, a, t)
    ensures Kept(c, s, p, t)
  {
    var pr := s.procs[p];
    match a
    case Unmark => MetaErased(c, s, p, pr.slot.value, t);
    case UnmarkFails => Quiet(c, s, p, t);
    case UnlockSlot => SlotGiven(c, s, p, t);
    case ProbeLock => SlotTaken(c, s, p, s.procs[p].pc.target, t);
    case ProbeBusy => Departed(c, s, p, t);
    case ProbeDone => Departed(c, s, p, t);
  }

  lemma DropShape(c: Config, s: State, p: Pid, a: Action, t: State)
    requires Local(c, s, p) && DropStep(s, p, a, t)
    ensures p in t.procs ==> ShapeOk(t.procs[p])
  {
  }

  lemma DropListing(c: Config, s: State, p: Pid, a: Action, t: State)
    requires Local(c, s, p) && DropStep(s, p, a, t)
    ensures p in t.procs ==> LeaseOk(t, p) && ListingOk(c, t, p) && SlotOk(t, p)
  {
  }

  lemma DropLocal(c: Config, s: State, p: Pid, a: Action, t: State)
    requires Local(c, s, p) && DropStep(s, p, a, t)
    ensures p in t.procs ==> Local(c, t, p)
  {
    DropShape(c, s, p, a, t);
    DropListing(c, s, p, a, t);
  }

  lemma DrainKeeps(c: Config, s: State, p: Pid, a: Action, t: State)
    requires Sound(c, s, p) && DrainStep(s, p, a, t)
    ensures Kept(c, s, p, t)
  {
    match a
    case Enter => QueueIn(c, s, p, t);
    case SetDrain => Administered(c, s, p, t);
    case AdminFails => Quiet(c, s, p, t);
    case AdminDone => Departed(c, s, p, t);
  }

  lemma DrainShape(c: Config, s: State, p: Pid, a: Action, t: State)
    requires Local(c, s, p) && DrainStep(s, p, a, t)
    ensures p in t.procs ==> ShapeOk(t.procs[p]) && LeaseOk(t, p)
  {
  }

  lemma DrainListing(c: Config, s: State, p: Pid, a: Action, t: State)
    requires Local(c, s, p) && DrainStep(s, p, a, t)
    ensures p in t.procs ==> ListingOk(c, t, p) && SlotOk(t, p)
  {
  }

  lemma DrainLocal(c: Config, s: State, p: Pid, a: Action, t: State)
    requires Local(c, s, p) && DrainStep(s, p, a, t)
    ensures p in t.procs ==> Local(c, t, p)
  {
    DrainShape(c, s, p, a, t);
    DrainListing(c, s, p, a, t);
  }

  lemma IdleKeeps(c: Config, s: State, p: Pid, a: Action, t: State)
    requires Sound(c, s, p) && IdleStep(s, p, a, t)
    ensures Kept(c, s, p, t)
  {
    match a
    case CheckDrain => Quiet(c, s, p, t);
    case CountSlot => Quiet(c, s, p, t);
    case CountDone => Quiet(c, s, p, t);
    case CheckIdle => Quiet(c, s, p, t);
  }

  lemma IdleShape(c: Config, s: State, p: Pid, a: Action, t: State)
    requires Local(c, s, p) && SharedOk(c, s) && IdleStep(s, p, a, t)
    ensures p in t.procs ==> ShapeOk(t.procs[p]) && LeaseOk(t, p)
  {
  }

  lemma IdleListing(c: Config, s: State, p: Pid, a: Action, t: State)
    requires Local(c, s, p) && SharedOk(c, s) && IdleStep(s, p, a, t)
    ensures p in t.procs ==> ListingOk(c, t, p)
  {
  }

  lemma CountedNone(c: Config, s: State, p: Pid, t: State)
    requires Local(c, s, p) && SharedOk(c, s) && IdleStep(s, p, CountDone, t)
    ensures p in t.procs ==> SlotOk(t, p)
  {
    forall x ensures x !in s.active {
      assert x in s.active ==> x < s.capacity <= 2;
    }
  }

  lemma IdleSlot(c: Config, s: State, p: Pid, a: Action, t: State)
    requires Local(c, s, p) && SharedOk(c, s) && IdleStep(s, p, a, t)
    ensures p in t.procs ==> SlotOk(t, p)
  {
    if a.CountDone? {
      CountedNone(c, s, p, t);
    }
  }

  lemma IdleLocal(c: Config, s: State, p: Pid, a: Action, t: State)
    requires Local(c, s, p) && SharedOk(c, s) && IdleStep(s, p, a, t)
    ensures p in t.procs ==> Local(c, t, p)
  {
    IdleShape(c, s, p, a, t);
    IdleListing(c, s, p, a, t);
    IdleSlot(c, s, p, a, t);
  }

  lemma CapacityKeeps(c: Config, s: State, p: Pid, a: Action, t: State)
    requires Sound(c, s, p) && CapacityStep(s, p, a, t)
    ensures Kept(c, s, p, t)
  {
    match a
    case WriteCapacity => Administered(c, s, p, t);
    case WriteCapacityFails(_) => Administered(c, s, p, t);
    case Persisted => Quiet(c, s, p, t);
    case RolledBack => Administered(c, s, p, t);
    case RollbackFails(_) => Administered(c, s, p, t);
  }

  lemma CapacityShape(c: Config, s: State, p: Pid, a: Action, t: State)
    requires Local(c, s, p) && SharedOk(c, s) && CapacityStep(s, p, a, t)
    ensures p in t.procs ==> ShapeOk(t.procs[p]) && LeaseOk(t, p)
  {
  }

  lemma CapacityListing(c: Config, s: State, p: Pid, a: Action, t: State)
    requires Local(c, s, p) && SharedOk(c, s) && CapacityStep(s, p, a, t)
    ensures p in t.procs ==> ListingOk(c, t, p)
  {
  }

  lemma CapacitySlot(c: Config, s: State, p: Pid, a: Action, t: State)
    requires Local(c, s, p) && SharedOk(c, s) && CapacityStep(s, p, a, t)
    ensures p in t.procs ==> SlotOk(t, p)
  {
  }

  lemma CapacityLocal(c: Config, s: State, p: Pid, a: Action, t: State)
    requires Local(c, s, p) && SharedOk(c, s) && CapacityStep(s, p, a, t)
    ensures p in t.procs ==> Local(c, t, p)
  {
    CapacityShape(c, s, p, a, t);
    CapacityListing(c, s, p, a, t);
    CapacitySlot(c, s, p, a, t);
  }

  lemma CrashKeeps(c: Config, s: State, p: Pid, t: State)
    requires Sound(c, s, p) && t == AfterCrash(s, p)
    ensures Kept(c, s, p, t)
  {
    Departed(c, s, p, t);
  }
}
