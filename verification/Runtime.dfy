// The runtime directory as one process sees it while nobody else runs: the scans
// and administrative commands as the loops they are. Protocol interleaves their
// single steps; here each is run to its end and proved against what it is for.
module RuntimeFiles {
  import opened Wrappers
  import opened Protocol
  import opened ProtocolScan

  // slot_quarantined: metadata that cannot be read, or one of whose processes
  // still answers a signal probe.
  predicate Quarantined(active: map<Slot, Meta>, alive: nat -> bool, x: Slot) {
    x in active && (active[x].Corrupt? || alive(active[x].sup)
                    || (active[x].Running? && alive(active[x].child)))
  }

  predicate Usable(active: map<Slot, Meta>, locks: map<Slot, Pid>, alive: nat -> bool, x: Slot) {
    !Quarantined(active, alive, x) && x !in locks
  }

  ghost predicate KeepsLive(leases: map<Name, Lease>, live: map<Name, Lease>) {
    && (forall n :: n in live <==> n in leases && leases[n].lock.Some?)
    && (forall n :: n in live ==> live[n] == leases[n])
  }

  // The leases somebody holds.
  ghost function LiveLeases(leases: map<Name, Lease>): (live: map<Name, Lease>)
    ensures KeepsLive(leases, live)
  {
    assert KeepsLive(leases, leases - set n | n in leases && leases[n].lock.None?);
    var live: map<Name, Lease> :| KeepsLive(leases, live);
    live
  }

  // The slots a scan has tried before offset k.
  function Tried(cap: nat, start: nat, k: nat): set<Slot>
    requires cap > 0
  {
    set j: nat | j < k :: SlotAt(cap, start, j)
  }

  // The files of the slots in xs whose processes are all gone.
  function Reclaimed(active: map<Slot, Meta>, alive: nat -> bool, xs: set<Slot>): map<Slot, Meta> {
    active - set x | x in active && x in xs && !Quarantined(active, alive, x)
  }

  datatype Denial = Draining | QueueFull | OwnerQueued
  datatype Poll = Granted(slot: Slot) | Waiting(name: Name) | Denied(why: Denial) | Failed

  // How a write may end: a failed one may have changed the file all the same.
  datatype Write = Written | FailedBefore | FailedAfter

  datatype Creation = Filled | NotCreated | NotFilled

  // What the file system does to one poll: whether the queue lock is taken, how the mark on
  // a won slot is written, whether a permit given up takes the mark away again, and how the
  // lease file is made.
  datatype Luck = Luck(locked: bool, mark: Write, unmarked: bool, create: Creation)

  datatype CapacityError = OutOfRange | NotDraining | NotIdle | WriteFailed | SaveFailed | RollbackFailed | UnlockFailed
    | DrainFailed | ResumeFailed

  // The first offset, from k on, whose slot is usable; cap if there is none.
  function FirstUsable(active: map<Slot, Meta>, locks: map<Slot, Pid>, alive: nat -> bool,
                       cap: nat, start: nat, k: nat): nat
    requires cap > 0
    decreases cap - k
  {
    if k >= cap then cap
    else if Usable(active, locks, alive, SlotAt(cap, start, k)) then k
    else FirstUsable(active, locks, alive, cap, start, k + 1)
  }

  function Choice(active: map<Slot, Meta>, locks: map<Slot, Pid>, alive: nat -> bool, cap: nat, p: Pid): Option<Slot>
    requires cap > 0
  {
    var k := FirstUsable(active, locks, alive, cap, p % cap, 0);
    if k < cap then Some(SlotAt(cap, p % cap, k)) else None
  }

  function AfterScan(active: map<Slot, Meta>, locks: map<Slot, Pid>, alive: nat -> bool, cap: nat, p: Pid):
      map<Slot, Meta>
    requires cap > 0
  {
    var k := FirstUsable(active, locks, alive, cap, p % cap, 0);
    Reclaimed(active, alive, Tried(cap, p % cap, if k < cap then k + 1 else cap))
  }

  // What a poll decides, in terms of the leases still held and the usable slots.
  ghost function Outcome(c: Config, leases: map<Name, Lease>, active: map<Slot, Meta>, locks: map<Slot, Pid>,
                         drain: bool, cap: nat, p: Pid, owner: Owner, lease: Option<Name>, newName: Name,
                         alive: nat -> bool, luck: Luck): Poll
    requires cap > 0
  {
    var live := LiveLeases(leases);
    var choice := Choice(active, locks, alive, cap, p);
    if !luck.locked then Failed
    else if drain then Denied(Draining)
    else if MayTry(lease, live.Keys) && choice.Some? then
      if luck.mark == Written then Granted(choice.value) else Failed
    else if lease.Some? then Waiting(lease.value)
    else if |live| >= c.maxQueue then Denied(QueueFull)
    else if |OwnerNames(live, owner)| >= c.maxPerOwner then Denied(OwnerQueued)
    else if luck.create == Filled then Waiting(newName)
    else Failed
  }

  // The slot a poll wins, whether or not it can mark it.
  ghost function SlotWon(leases: map<Name, Lease>, active: map<Slot, Meta>, locks: map<Slot, Pid>, drain: bool,
                         cap: nat, p: Pid, lease: Option<Name>, alive: nat -> bool, luck: Luck):
      Option<Slot>
    requires cap > 0
  {
    if luck.locked && !drain && MayTry(lease, LiveLeases(leases).Keys) then Choice(active, locks, alive, cap, p)
    else None
  }

  // The lease files after a poll.
  ghost function LeasesAfter(leases: map<Name, Lease>, p: Pid, owner: Owner, lease: Option<Name>, newName: Name,
                             r: Poll, won: Option<Slot>, luck: Luck): map<Name, Lease>
  {
    var live := LiveLeases(leases);
    if !luck.locked then leases
    else if won.Some? then if lease.Some? then live - {lease.value} else live
    else
      match r
      case Waiting(n) => live[n := Lease(Some(p), Some(owner))]
      case Failed => if luck.create == NotFilled then live[newName := Lease(None, None)] else live
      case _ => live
  }

  // The metadata after a poll that won a slot.
  function MarkedAfter(scanned: map<Slot, Meta>, p: Pid, x: Slot, luck: Luck): map<Slot, Meta> {
    if luck.mark == Written || (luck.mark == FailedAfter && !luck.unmarked) then scanned[x := Starting(p)] else scanned
  }

  // The metadata files after a poll.
  ghost function ActiveAfter(leases: map<Name, Lease>, active: map<Slot, Meta>, locks: map<Slot, Pid>, drain: bool,
                             cap: nat, p: Pid, lease: Option<Name>, alive: nat -> bool, luck: Luck):
      map<Slot, Meta>
    requires cap > 0
  {
    if !luck.locked || drain || !MayTry(lease, LiveLeases(leases).Keys) then active
    else
      match Choice(active, locks, alive, cap, p)
      case None => AfterScan(active, locks, alive, cap, p)
      case Some(x) => MarkedAfter(AfterScan(active, locks, alive, cap, p), p, x, luck)
  }

  // The lease a process has after a poll.
  function LeaseHeld(r: Poll, lease: Option<Name>, luck: Luck): Option<Name> {
    match r
    case Granted(_) => None
    case Waiting(n) => Some(n)
    case Denied(_) => lease
    case Failed => if luck.locked then None else lease
  }

  // ---- whose turn it is, and what is decided ------------------------------------------------

  // Names of the leases somebody holds, and of those one owner holds.
  function HeldNames(leases: map<Name, Lease>): set<Name> {
    set n | n in leases && leases[n].lock.Some?
  }

  function HeldNamesOf(leases: map<Name, Lease>, owner: Owner): set<Name> {
    set n | n in leases && leases[n].lock.Some? && leases[n].owner == Some(owner)
  }

  // Nobody waits ahead: a newcomer sees no held lease, a waiter none smaller than its own.
  ghost predicate FirstInLine(leases: map<Name, Lease>, lease: Option<Name>) {
    match lease
    case None => forall n :: n in leases ==> leases[n].lock == None
    case Some(mine) => forall n :: n in leases && leases[n].lock != None ==> mine <= n
  }

  // A slot below the capacity that nobody has locked, without metadata or with readable
  // metadata of processes that are dead.
  ghost predicate FreeBelow(active: map<Slot, Meta>, locks: map<Slot, Pid>, alive: nat -> bool, cap: nat, x: Slot) {
    && x < cap && x !in locks
    && (x !in active
        || match active[x]
           case Corrupt => false
           case Starting(sup) => !alive(sup)
           case Running(sup, child) => !alive(sup) && !alive(child))
  }

  ghost predicate SomeFree(active: map<Slot, Meta>, locks: map<Slot, Pid>, alive: nat -> bool, cap: nat) {
    exists x: Slot :: FreeBelow(active, locks, alive, cap, x)
  }

  lemma HeldIsLive(leases: map<Name, Lease>, owner: Owner)
    ensures LiveLeases(leases).Keys == HeldNames(leases) && |LiveLeases(leases)| == |HeldNames(leases)|
    ensures OwnerNames(LiveLeases(leases), owner) == HeldNamesOf(leases, owner)
  {
    var live := LiveLeases(leases);
    assert live.Keys == HeldNames(leases);
    assert |live.Keys| == |live|;
  }

  lemma FirstMayTry(leases: map<Name, Lease>, lease: Option<Name>)
    requires lease.Some? ==> lease.value in leases && leases[lease.value].lock.Some?
    ensures MayTry(lease, LiveLeases(leases).Keys) <==> FirstInLine(leases, lease)
  {
    var live := LiveLeases(leases);
    match lease {
      case None =>
        if FirstInLine(leases, None) {
          assert live.Keys == {};
        } else {
          var n :| n in leases && leases[n].lock != None;
          assert n in live.Keys;
        }
      case Some(mine) =>
        assert mine in live;
        forall n | n in leases && leases[n].lock != None ensures n in live.Keys {
        }
        forall n | n in live.Keys ensures n in leases && leases[n].lock != None {
        }
    }
  }

  lemma FreeChosen(active: map<Slot, Meta>, locks: map<Slot, Pid>, alive: nat -> bool, cap: nat, p: Pid)
    requires cap > 0
    ensures Choice(active, locks, alive, cap, p).Some? <==> SomeFree(active, locks, alive, cap)
    ensures var choice := Choice(active, locks, alive, cap, p);
            choice.Some? ==> FreeBelow(active, locks, alive, cap, choice.value)
  {
    ChoiceIsFirst(active, locks, alive, cap, p);
    if SomeFree(active, locks, alive, cap) {
      var x: Slot :| FreeBelow(active, locks, alive, cap, x);
      assert Usable(active, locks, alive, x);
    }
    if Choice(active, locks, alive, cap, p).Some? {
      assert FreeBelow(active, locks, alive, cap, Choice(active, locks, alive, cap, p).value);
    }
  }

  // A scan removes metadata of dead processes only, and if it finds no free slot it has
  // removed all of that below the capacity.
  lemma ScanReclaims(active: map<Slot, Meta>, locks: map<Slot, Pid>, alive: nat -> bool, cap: nat, p: Pid, x: Slot)
    requires cap > 0 && x in active
    ensures var after := AfterScan(active, locks, alive, cap, p);
            var dead := match active[x]
                        case Corrupt => false
                        case Starting(sup) => !alive(sup)
                        case Running(sup, child) => !alive(sup) && !alive(child);
            && (!dead ==> x in after && after[x] == active[x])
            && (dead && x < cap && !SomeFree(active, locks, alive, cap) ==> x !in after)
  {
    FreeChosen(active, locks, alive, cap, p);
    FirstUsableIsFirst(active, locks, alive, cap, p % cap, 0);
    if x < cap {
      var k := RotationVisitsOnce(cap, p % cap, x);
      assert x in Tried(cap, p % cap, cap);
    }
  }

  // A poll that reaches its files and can mark a slot is granted one exactly when the pool
  // is not draining, nobody waits ahead, and some slot is free.
  lemma GrantedExactly(c: Config, leases: map<Name, Lease>, active: map<Slot, Meta>, locks: map<Slot, Pid>,
                       drain: bool, cap: nat, p: Pid, owner: Owner, lease: Option<Name>, newName: Name,
                       alive: nat -> bool, luck: Luck)
    requires cap > 0 && luck.locked && luck.mark == Written
    requires lease.Some? ==> lease.value in leases && leases[lease.value].lock.Some?
    ensures var r := Outcome(c, leases, active, locks, drain, cap, p, owner, lease, newName, alive, luck);
            && (r.Granted? <==> !drain && FirstInLine(leases, lease) && SomeFree(active, locks, alive, cap))
            && (r.Granted? ==> FreeBelow(active, locks, alive, cap, r.slot))
  {
    FirstMayTry(leases, lease);
    FreeChosen(active, locks, alive, cap, p);
  }

  // The decision of a poll that is not granted a slot: a waiter goes on waiting, a newcomer
  // is refused by a full queue, then by too many waiters of its owner, and else queues up.
  lemma TurnedAwayExactly(c: Config, leases: map<Name, Lease>, active: map<Slot, Meta>, locks: map<Slot, Pid>,
                          drain: bool, cap: nat, p: Pid, owner: Owner, lease: Option<Name>, newName: Name,
                          alive: nat -> bool, luck: Luck)
    requires cap > 0 && luck == Luck(true, Written, luck.unmarked, Filled)
    requires lease.Some? ==> lease.value in leases && leases[lease.value].lock.Some?
    requires !FirstInLine(leases, lease) || !SomeFree(active, locks, alive, cap) || drain
    ensures Outcome(c, leases, active, locks, drain, cap, p, owner, lease, newName, alive, luck)
         == if drain then Denied(Draining)
            else
              match lease
              case Some(mine) => Waiting(mine)
              case None =>
                if c.maxQueue <= |HeldNames(leases)| then Denied(QueueFull)
                else if c.maxPerOwner <= |HeldNamesOf(leases, owner)| then Denied(OwnerQueued)
                else Waiting(newName)
  {
    FirstMayTry(leases, lease);
    FreeChosen(active, locks, alive, cap, p);
    HeldIsLive(leases, owner);
  }

  class Runtime {
    var leases: map<Name, Lease>
    var active: map<Slot, Meta>
    var locks: map<Slot, Pid>
    var drain: bool
    var capacity: nat

    constructor (capacity: nat)
      requires 1 <= capacity <= 2
      ensures this.capacity == capacity && !drain
      ensures leases == map[] && active == map[] && locks == map[]
    {
      this.leases, this.active, this.locks := map[], map[], map[];
      this.drain, this.capacity := false, capacity;
    }

    method PruneStaleWaiters()
      modifies this`leases
      ensures leases == LiveLeases(old(leases))
    {
      var todo := leases.Keys;
      while todo != {}
        invariant todo <= leases.Keys <= old(leases).Keys
        invariant forall n :: n in leases ==> leases[n] == old(leases)[n]
        invariant forall n :: n in old(leases) && (n !in leases || n !in todo) ==>
                    (n in leases <==> old(leases)[n].lock.Some?)
        decreases |todo|
      {
        var n :| n in todo;
        if leases[n].lock.None? {
          leases := leases - {n};
        }
        todo := todo - {n};
      }
    }

    method SlotQuarantined(x: Slot, alive: nat -> bool) returns (quarantined: bool)
      modifies this`active
      ensures quarantined <==> Quarantined(old(active), alive, x)
      ensures active == Reclaimed(old(active), alive, {x})
    {
      if x !in active {
        quarantined := false;
      } else {
        match active[x] {
          case Corrupt => quarantined := true;
          case Starting(sup) => quarantined := alive(sup);
          case Running(sup, child) => quarantined := alive(sup) || alive(child);
        }
        if !quarantined {
          active := active - {x};
        }
      }
      ReclaimedOne(old(active), alive, x);
    }

    method TrySlots(p: Pid, alive: nat -> bool) returns (permit: Option<Slot>)
      requires 1 <= capacity <= 2
      modifies this`active, this`locks
      ensures permit == Choice(old(active), old(locks), alive, capacity, p)
      ensures active == AfterScan(old(active), old(locks), alive, capacity, p)
      ensures locks == if permit.Some? then old(locks)[permit.value := p] else old(locks)
    {
      var start := p % capacity;
      var k: nat := 0;
      while k < capacity
        invariant k <= capacity && locks == old(locks)
        invariant FirstUsable(old(active), old(locks), alive, capacity, start, 0)
               == FirstUsable(old(active), old(locks), alive, capacity, start, k)
        invariant active == Reclaimed(old(active), alive, Tried(capacity, start, k))
      {
        var x := SlotAt(capacity, start, k);
        TriedGrows(capacity, start, k);
        ReclaimedTwice(old(active), alive, Tried(capacity, start, k), x);
        var quarantined := SlotQuarantined(x, alive);
        if !quarantined && x !in locks {
          locks := locks[x := p];
          return Some(x);
        }
        k := k + 1;
      }
      permit := None;
    }

    // The mark on a won slot; without it the permit is dropped again.
    method MarkStarting(p: Pid, x: Slot, luck: Luck) returns (ok: bool)
      requires x !in active && x in locks && locks[x] == p
      modifies this`active, this`locks
      ensures ok <==> luck.mark == Written
      ensures active == MarkedAfter(old(active), p, x, luck)
      ensures locks == if ok then old(locks) else old(locks) - {x}
    {
      ok := luck.mark == Written;
      if luck.mark != FailedBefore {
        active := active[x := Starting(p)];
      }
      if !ok {
        if luck.unmarked {
          active := active - {x};
        }
        locks := locks - {x};
      }
      assert active == MarkedAfter(old(active), p, x, luck);
    }

    // WaiterLease::create
    method CreateLease(p: Pid, owner: Owner, newName: Name, luck: Luck) returns (ok: bool)
      requires newName !in leases
      modifies this`leases
      ensures ok <==> luck.create == Filled
      ensures leases == match luck.create
                        case Filled => old(leases)[newName := Lease(Some(p), Some(owner))]
                        case NotCreated => old(leases)
                        case NotFilled => old(leases)[newName := Lease(None, None)]
    {
      if luck.create == NotCreated {
        return false;
      }
      leases := leases[newName := Lease(Some(p), None)];
      if luck.create == NotFilled {
        leases := leases[newName := Lease(None, None)];
        return false;
      }
      leases := leases[newName := Lease(Some(p), Some(owner))];
      return true;
    }

    // No slot: stay queued, or pass admission and queue up.
    method Queue(c: Config, p: Pid, owner: Owner, lease: Option<Name>, newName: Name, luck: Luck) returns (r: Poll)
      requires lease == None ==> newName !in leases
      modifies this`leases
      ensures r == if lease.Some? then Waiting(lease.value)
                   else if |old(leases)| >= c.maxQueue then Denied(QueueFull)
                   else if |OwnerNames(old(leases), owner)| >= c.maxPerOwner then Denied(OwnerQueued)
                   else if luck.create == Filled then Waiting(newName) else Failed
      ensures leases == match r
                        case Waiting(n) => if lease.Some? then old(leases)
                                           else old(leases)[n := Lease(Some(p), Some(owner))]
                        case Failed => if luck.create == NotFilled then old(leases)[newName := Lease(None, None)]
                                       else old(leases)
                        case _ => old(leases)
    {
      if lease.Some? {
        return Waiting(lease.value);
      }
      if |leases| >= c.maxQueue {
        return Denied(QueueFull);
      }
      if |OwnerNames(leases, owner)| >= c.maxPerOwner {
        return Denied(OwnerQueued);
      }
      var ok := CreateLease(p, owner, newName, luck);
      r := if ok then Waiting(newName) else Failed;
    }

    // The scan, and what follows on a won slot.
    method TryGrant(p: Pid, lease: Option<Name>, alive: nat -> bool, luck: Luck) returns (r: Option<Poll>)
      requires 1 <= capacity <= 2 && (lease.Some? ==> lease.value in leases)
      modifies this`leases, this`active, this`locks
      ensures var choice := Choice(old(active), old(locks), alive, capacity, p);
              var scanned := AfterScan(old(active), old(locks), alive, capacity, p);
              && r == (if choice == None then None
                       else Some(if luck.mark == Written then Granted(choice.value) else Failed))
              && leases == (if choice.Some? && lease.Some? then old(leases) - {lease.value} else old(leases))
              && active == (if choice.Some? then MarkedAfter(scanned, p, choice.value, luck) else scanned)
              && locks == (if choice.Some? && luck.mark == Written then old(locks)[choice.value := p] else old(locks))
    {
      var permit := TrySlots(p, alive);
      if permit == None {
        return None;
      }
      if lease.Some? {
        leases := leases - {lease.value};
      }
      ChosenIsClear(old(active), old(locks), alive, capacity, p);
      var ok := MarkStarting(p, permit.value, luck);
      if ok {
        return Some(Granted(permit.value));
      }
      assert locks == old(locks);
      return Some(Failed);
    }

    // One pass through the critical section of acquire, and the lease held afterwards.
    method CriticalSection(c: Config, p: Pid, owner: Owner, lease: Option<Name>, newName: Name, alive: nat -> bool,
                           luck: Luck)
      returns (r: Poll, held: Option<Name>)
      requires 1 <= capacity <= 2 && (lease == None ==> newName !in leases)
      requires lease.Some? ==> lease.value in leases && leases[lease.value] == Lease(Some(p), Some(owner))
      modifies this`leases, this`active, this`locks
      ensures r == Outcome(c, old(leases), old(active), old(locks), drain, capacity, p, owner, lease, newName,
                           alive, luck)
      ensures held == LeaseHeld(r, lease, luck)
      ensures var won := SlotWon(old(leases), old(active), old(locks), drain, capacity, p, lease, alive, luck);
              leases == LeasesAfter(old(leases), p, owner, lease, newName, r, won, luck)
      ensures active == ActiveAfter(old(leases), old(active), old(locks), drain, capacity, p, lease, alive, luck)
      ensures locks == if r.Granted? then old(locks)[r.slot := p] else old(locks)
    {
      if !luck.locked {
        return Failed, lease;
      }
      PruneStaleWaiters();
      if drain {
        return Denied(Draining), lease;
      }
      if MayTry(lease, leases.Keys) {
        var granted := TryGrant(p, lease, alive, luck);
        if granted.Some? {
          return granted.value, None;
        }
      }
      r := Queue(c, p, owner, lease, newName, luck);
      held := LeaseHeld(r, lease, luck);
      if lease.Some? {
        assert leases == leases[lease.value := Lease(Some(p), Some(owner))];
      }
    }

    // The same, with what a grant means.
    method TakeTurn(c: Config, p: Pid, owner: Owner, lease: Option<Name>, newName: Name, alive: nat -> bool, luck: Luck)
      returns (r: Poll, held: Option<Name>)
      requires 1 <= capacity <= 2 && (lease == None ==> newName !in leases)
      requires lease.Some? ==> lease.value in leases && leases[lease.value] == Lease(Some(p), Some(owner))
      modifies this`leases, this`active, this`locks
      ensures r == Outcome(c, old(leases), old(active), old(locks), drain, capacity, p, owner, lease, newName,
                           alive, luck)
      ensures luck.locked && luck.mark == Written ==>
                (r.Granted? <==> !drain && FirstInLine(old(leases), lease)
                                 && SomeFree(old(active), old(locks), alive, capacity))
      ensures held == LeaseHeld(r, lease, luck)
      ensures var won := SlotWon(old(leases), old(active), old(locks), drain, capacity, p, lease, alive, luck);
              leases == LeasesAfter(old(leases), p, owner, lease, newName, r, won, luck)
      ensures active == ActiveAfter(old(leases), old(active), old(locks), drain, capacity, p, lease, alive, luck)
      ensures locks == if r.Granted? then old(locks)[r.slot := p] else old(locks)
    {
      if luck.locked && luck.mark == Written {
        GrantedExactly(c, leases, active, locks, drain, capacity, p, owner, lease, newName, alive, luck);
      }
      r, held := CriticalSection(c, p, owner, lease, newName, alive, luck);
    }

    method ActiveCount() returns (n: nat)
      ensures n == (if 0 in active then 1 else 0) + (if 1 in active then 1 else 0)
    {
      n := 0;
      for x := 0 to 2
        invariant n == (if x > 0 && 0 in active then 1 else 0) + (if x > 1 && 1 in active then 1 else 0)
      {
        if x in active {
          n := n + 1;
        }
      }
    }

    // The flag is created or removed under the queue lock; unlocking may fail afterwards.
    method SetDrain(enabled: bool, outcome: Write) returns (ok: bool)
      modifies this`drain
      ensures ok <==> outcome == Written
      ensures drain == if outcome == FailedBefore then old(drain) else enabled
    {
      if outcome != FailedBefore {
        drain := enabled;
      }
      ok := outcome == Written;
    }

    // write_atomic on the capacity file
    method WriteCapacity(value: nat, outcome: Write)
      modifies this`capacity
      ensures capacity == if outcome == FailedBefore then old(capacity) else value
    {
      if outcome != FailedBefore {
        capacity := value;
      }
    }

    // The configuration is saved between the two writes; saved and unlocked say whether
    // that and giving the queue lock back worked.
    method SetCapacityTransactional(wanted: nat, write: Write, saved: bool, rollback: Write, unlocked: bool)
      returns (r: Result<(), CapacityError>)
      modifies this`capacity
      ensures r.Ok? <==> 1 <= wanted <= 2 && drain && 0 !in active && 1 !in active && leases == map[]
                         && write == Written && saved && unlocked
      ensures r.Ok? ==> capacity == wanted
      ensures capacity == old(capacity) || capacity == wanted
      ensures capacity != old(capacity) ==> drain && 0 !in active && 1 !in active && leases == map[] && 1 <= wanted <= 2
      ensures r.Err? ==>
                match r.error
                case OutOfRange => !(1 <= wanted <= 2) && capacity == old(capacity)
                case NotDraining => !drain && capacity == old(capacity)
                case NotIdle => (0 in active || 1 in active || leases != map[]) && capacity == old(capacity)
                case WriteFailed =>
                  write != Written && capacity == if write == FailedAfter then wanted else old(capacity)
                case RollbackFailed =>
                  && !saved && rollback != Written
                  && capacity == if rollback == FailedBefore then wanted else old(capacity)
                case SaveFailed => !saved && rollback == Written && capacity == old(capacity)
                case UnlockFailed => write == Written && saved && !unlocked && capacity == wanted
                case _ => false
    {
      if !(1 <= wanted <= 2) {
        return Err(OutOfRange);
      }
      if !drain {
        return Err(NotDraining);
      }
      var n := ActiveCount();
      if n > 0 || leases != map[] {
        return Err(NotIdle);
      }
      var previous := capacity;
      WriteCapacity(wanted, write);
      if write != Written {
        return Err(WriteFailed);
      }
      if !saved {
        WriteCapacity(previous, rollback);
        return Err(if rollback != Written then RollbackFailed else SaveFailed);
      }
      r := if unlocked then Ok(()) else Err(UnlockFailed);
    }

    // config set-capacity [--drain]: an error of the update is reported before one of the
    // resume, and the resume is tried either way.
    method Configure(wanted: nat, withDrain: bool, drained: Write, write: Write, saved: bool, rollback: Write,
                     unlocked: bool, resumed: Write)
        returns (r: Result<(), CapacityError>)
      modifies this`capacity, this`drain
      ensures var drains := withDrain && !old(drain);
              && (r.Ok? <==>
                    && 1 <= wanted <= 2 && (withDrain || old(drain)) && 0 !in active && 1 !in active && leases == map[]
                    && write == Written && saved && unlocked && (drains ==> drained == Written && resumed == Written))
              && (r == Err(DrainFailed) <==> drains && drained != Written)
              && (r == Err(ResumeFailed) ==> drains && resumed != Written && capacity == wanted)
              && (drain == old(drain) <==>
                    !drains || drained == FailedBefore || (drained == Written && resumed != FailedBefore))
      ensures r.Ok? ==> capacity == wanted && drain == old(drain)
      ensures r.Err? && r.error !in {WriteFailed, RollbackFailed, UnlockFailed, ResumeFailed} ==>
                capacity == old(capacity)
      ensures capacity == old(capacity) || capacity == wanted
    {
      var enabled := withDrain && !drain;
      if enabled {
        var ok := SetDrain(true, drained);
        if !ok {
          return Err(DrainFailed);
        }
      }
      r := SetCapacityTransactional(wanted, write, saved, rollback, unlocked);
      if enabled {
        var resume := SetDrain(false, resumed);
        if r.Ok? && !resume {
          return Err(ResumeFailed);
        }
      }
    }
  }

  // The chosen slot has no metadata left after the scan, and is not locked.
  lemma ChosenIsClear(active: map<Slot, Meta>, locks: map<Slot, Pid>, alive: nat -> bool, cap: nat, p: Pid)
    requires cap > 0 && Choice(active, locks, alive, cap, p).Some?
    ensures var x := Choice(active, locks, alive, cap, p).value;
            x !in AfterScan(active, locks, alive, cap, p) && x !in locks
  {
    FirstUsableIsFirst(active, locks, alive, cap, p % cap, 0);
    var k := FirstUsable(active, locks, alive, cap, p % cap, 0);
    assert SlotAt(cap, p % cap, k) in Tried(cap, p % cap, k + 1);
  }

  // The granted slot is usable and first in the rotation; there is none only when
  // no slot below the capacity is usable.
  lemma ChoiceIsFirst(active: map<Slot, Meta>, locks: map<Slot, Pid>, alive: nat -> bool, cap: nat, p: Pid)
    requires cap > 0
    ensures match Choice(active, locks, alive, cap, p)
            case None => forall x: Slot :: x < cap ==> !Usable(active, locks, alive, x)
            case Some(x) =>
              x < cap && Usable(active, locks, alive, x)
              && exists k: nat :: k < cap && x == SlotAt(cap, p % cap, k)
                   && forall j: nat :: j < k ==> !Usable(active, locks, alive, SlotAt(cap, p % cap, j))
  {
    FirstUsableIsFirst(active, locks, alive, cap, p % cap, 0);
    if Choice(active, locks, alive, cap, p).None? {
      forall x: Slot | x < cap ensures !Usable(active, locks, alive, x) {
        var k := RotationVisitsOnce(cap, p % cap, x);
      }
    }
  }

  lemma {:induction false} FirstUsableIsFirst(active: map<Slot, Meta>, locks: map<Slot, Pid>, alive: nat -> bool,
                                              cap: nat, start: nat, k: nat)
    requires 0 < cap && k <= cap
    ensures var f := FirstUsable(active, locks, alive, cap, start, k);
            && k <= f <= cap
            && (forall j: nat :: k <= j < f ==> !Usable(active, locks, alive, SlotAt(cap, start, j)))
            && (f < cap ==> Usable(active, locks, alive, SlotAt(cap, start, f)))
    decreases cap - k
  {
    if k < cap && !Usable(active, locks, alive, SlotAt(cap, start, k)) {
      FirstUsableIsFirst(active, locks, alive, cap, start, k + 1);
    }
  }

  lemma TriedGrows(cap: nat, start: nat, k: nat)
    requires cap > 0
    ensures Tried(cap, start, k + 1) == Tried(cap, start, k) + {SlotAt(cap, start, k)}
  {
  }

  lemma ReclaimedOne(active: map<Slot, Meta>, alive: nat -> bool, x: Slot)
    ensures Reclaimed(active, alive, {x}) ==
            if x in active && !Quarantined(active, alive, x) then active - {x} else active
  {
  }

  lemma ReclaimedTwice(active: map<Slot, Meta>, alive: nat -> bool, xs: set<Slot>, x: Slot)
    ensures Reclaimed(Reclaimed(active, alive, xs), alive, {x}) == Reclaimed(active, alive, xs + {x})
  {
  }
}
