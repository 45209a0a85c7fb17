// The abstract object the slot protocol implements: a bounded counting semaphore
// whose waiters are served least name first. Every step of every process is one
// of its operations, or none.
module Semaphore {
  import opened Wrappers
  import opened Protocol
  import opened ProtocolInvariant
  import opened ProtocolSafety
  import opened ProtocolRuns

  datatype Sem = Sem(running: set<Slot>, queue: set<Name>, draining: bool, capacity: nat)

  datatype Op =
    | Enqueue(name: Name)
    | Grant(slot: Slot, waiter: Option<Name>)
    | Release(slot: Slot)
    | Withdraw(name: Name)
    | SetDraining(enabled: bool)
    | Resize(wanted: nat)
    | Stutter

  ghost predicate SemStep(max: nat, a: Sem, op: Op, b: Sem) {
    match op
    case Enqueue(n) =>
      && !a.draining && |a.queue| < max && n !in a.queue
      && b == a.(queue := a.queue + {n})
    case Grant(x, waiter) =>
      && !a.draining && x !in a.running && x < a.capacity
      && (match waiter
          case None => a.queue == {}
          case Some(n) => n in a.queue && forall m :: m in a.queue ==> n <= m)
      && b == a.(running := a.running + {x},
                 queue := if waiter.Some? then a.queue - {waiter.value} else a.queue)
    case Release(x) => x in a.running && b == a.(running := a.running - {x})
    case Withdraw(n) => n in a.queue && b == a.(queue := a.queue - {n})
    case SetDraining(on) => b == a.(draining := on)
    case Resize(k) =>
      && a.draining && a.running == {} && a.queue == {} && 1 <= k <= 2
      && b == a.(capacity := k)
    case Stutter => b == a
  }

  ghost predicate SemOk(max: nat, a: Sem) {
    && 1 <= a.capacity <= 2
    && (forall x :: x in a.running ==> x < a.capacity)
    && |a.queue| <= max
  }

  // The semaphore never runs more than its capacity nor queues more than its limit.
  lemma SemKeeps(max: nat, a: Sem, op: Op, b: Sem)
    requires SemOk(max, a) && SemStep(max, a, op, b)
    ensures SemOk(max, b) && |b.running| <= b.capacity
  {
    if op.Withdraw? || op.Grant? {
      SubsetSize(b.queue, a.queue);
    }
    Pigeonhole(b.running, (x: nat) => x, b.capacity);
  }

  // ---- the abstraction -------------------------------------------------------

  predicate Taking(pc: Pc) {
    pc.Won? || pc.Unlisting? || pc.Cleared?
  }

  function TakenBy(s: State, p: Pid): set<Slot> {
    if p in s.procs && s.procs[p].slot.Some? && Taking(s.procs[p].pc) then {s.procs[p].slot.value} else {}
  }

  function WaitsAs(s: State, p: Pid): set<Name> {
    if p in s.procs && s.procs[p].lease.Some? && !s.procs[p].pc.Won? then {s.procs[p].lease.value} else {}
  }

  function Taken(s: State): set<Slot> {
    set p, x | p in s.procs && x in TakenBy(s, p) :: x
  }

  function Queued(s: State): set<Name> {
    set p, n | p in s.procs && n in WaitsAs(s, p) :: n
  }

  // A slot runs from the moment its lock is won until its metadata is gone.
  function Abs(s: State): Sem {
    Sem(s.active.Keys + Taken(s), Queued(s), s.drain, s.capacity)
  }

  function OpOf(s: State, p: Pid, a: Action, t: State): Op {
    if p !in s.procs then Stutter
    else
      var pr := s.procs[p];
      match a
      case LockSlot => if pr.pc.TryLock? && pr.pc.cap > 0
                       then Grant(SlotAt(pr.pc.cap, pr.pc.start, pr.pc.k), pr.lease) else Stutter
      case ProbeDead => if pr.pc.Probe? && pr.pc.cap > 0
                        then Release(SlotAt(pr.pc.cap, pr.pc.start, pr.pc.k)) else Stutter
      case LockLease => if pr.pc.Created? then Enqueue(pr.pc.name) else Stutter
      case FillFails => if pr.lease.Some? then Withdraw(pr.lease.value) else Stutter
      case QuitFree => if pr.lease.Some? then Withdraw(pr.lease.value) else Stutter
      case MarkStartingFails(written) =>
        if pr.slot.Some? && !written then Release(pr.slot.value) else Stutter
      case Unmark => if pr.slot.Some? && pr.slot.value in s.active then Release(pr.slot.value) else Stutter
      case SetDrain => if pr.pc.DrainIn? then SetDraining(pr.pc.enabled) else Stutter
      case WriteCapacity => Resize(t.capacity)
      case WriteCapacityFails(_) => Resize(t.capacity)
      case RolledBack => Resize(t.capacity)
      case RollbackFails(_) => Resize(t.capacity)
      case Crash =>
        if Taking(pr.pc) && pr.slot.Some? then Release(pr.slot.value)
        else if pr.lease.Some? then Withdraw(pr.lease.value)
        else Stutter
      case _ => Stutter
  }

  lemma OwnNames(c: Config, s: State, p: Pid, q: Pid)
    requires AllMine(c, s) && p != q
    ensures TakenBy(s, p) * TakenBy(s, q) == {} && WaitsAs(s, p) * WaitsAs(s, q) == {}
  {
    assert MineOk(c, s, p) && MineOk(c, s, q);
  }

  // Only what p itself takes or waits for can change.
  lemma AbsMoves(c: Config, s: State, p: Pid, t: State)
    requires AllMine(c, s) && AllMine(c, t) && KeepsProcs(s, p, t)
    ensures Taken(t) == (Taken(s) - TakenBy(s, p)) + TakenBy(t, p)
    ensures Queued(t) == (Queued(s) - WaitsAs(s, p)) + WaitsAs(t, p)
    ensures TakenBy(s, p) <= Taken(s) && WaitsAs(s, p) <= Queued(s)
  {
    forall q: Pid | q != p
      ensures TakenBy(t, q) == TakenBy(s, q) && WaitsAs(t, q) == WaitsAs(s, q)
      ensures TakenBy(s, q) * TakenBy(s, p) == {} && WaitsAs(s, q) * WaitsAs(s, p) == {}
    {
      OwnNames(c, s, p, q);
    }
  }

  // ---- every step refines ----------------------------------------------------

  function AbsWith(s: State, taken: set<Slot>, queued: set<Name>): Sem {
    Sem(s.active.Keys + taken, queued, s.drain, s.capacity)
  }

  // What the invariant says about the slots being taken and the queued names.
  ghost predicate Viewed(c: Config, s: State, p: Pid, taken: set<Slot>, queued: set<Name>)
    requires p in s.procs
  {
    && TakenBy(s, p) <= taken && WaitsAs(s, p) <= queued
    && taken !! s.active.Keys && taken <= s.locks.Keys
    && (s.procs[p].inQueue ==> taken == TakenBy(s, p))
    && queued <= s.leases.Keys && (forall n :: n in queued ==> s.leases[n].lock.Some?)
    && |s.leases| <= c.maxQueue
  }

  ghost predicate SameRest(s: State, p: Pid, t: State) {
    t.active.Keys == s.active.Keys && TakenBy(t, p) == TakenBy(s, p)
  }

  ghost predicate SameRules(s: State, t: State) {
    t.drain == s.drain && t.capacity == s.capacity
  }

  // How an operation shows in the files and in the process that performs it.
  ghost predicate Delta(s: State, p: Pid, op: Op, t: State)
    requires p in s.procs
  {
    match op
    case Stutter =>
      && SameRules(s, t) && WaitsAs(t, p) == WaitsAs(s, p)
      && (SameRest(s, p, t)
          || (TakenBy(t, p) == {} && t.active.Keys == s.active.Keys + TakenBy(s, p)))
    case Enqueue(n) =>
      && SameRules(s, t) && SameRest(s, p, t) && WaitsAs(s, p) == {} && WaitsAs(t, p) == {n}
      && !s.drain && n in s.leases && s.leases[n].lock.None?
    case Grant(x, waiter) =>
      && SameRules(s, t) && t.active.Keys == s.active.Keys && s.procs[p].inQueue
      && TakenBy(s, p) == {} && TakenBy(t, p) == {x} && WaitsAs(t, p) == {}
      && !s.drain && x !in s.active && x < s.capacity
      && (match waiter
          case None => WaitsAs(s, p) == {} && s.leases.Keys == {}
          case Some(n) => WaitsAs(s, p) == {n} && forall m :: m in s.leases ==> n <= m)
    case Release(x) =>
      && SameRules(s, t) && WaitsAs(t, p) == WaitsAs(s, p)
      && ((TakenBy(t, p) == TakenBy(s, p) && x in s.active && t.active.Keys == s.active.Keys - {x})
          || (TakenBy(s, p) == {x} && TakenBy(t, p) == {} && t.active.Keys == s.active.Keys))
    case Withdraw(n) =>
      SameRules(s, t) && SameRest(s, p, t) && WaitsAs(s, p) == {n} && WaitsAs(t, p) == {}
    case SetDraining(on) =>
      SameRest(s, p, t) && WaitsAs(t, p) == WaitsAs(s, p) && t.capacity == s.capacity && t.drain == on
    case Resize(k) =>
      && SameRest(s, p, t) && WaitsAs(t, p) == WaitsAs(s, p) && t.drain == s.drain && t.capacity == k
      && s.drain && s.active.Keys == {} && s.leases.Keys == {} && TakenBy(s, p) == {} && s.procs[p].inQueue
      && 1 <= k <= 2
  }

  ghost predicate DeltaStep(c: Config, s: State, p: Pid, op: Op, t: State, taken: set<Slot>, queued: set<Name>) {
    SemStep(c.maxQueue, AbsWith(s, taken, queued), op,
            AbsWith(t, (taken - TakenBy(s, p)) + TakenBy(t, p), (queued - WaitsAs(s, p)) + WaitsAs(t, p)))
  }

  lemma PutBack<T>(all: set<T>, mine: set<T>)
    requires mine <= all
    ensures (all - mine) + mine == all
  {
  }

  lemma HandOver(keys: set<Slot>, all: set<Slot>, mine: set<Slot>)
    requires mine <= all
    ensures (keys + mine) + ((all - mine) + {}) == keys + all
  {
  }

  lemma DropKey(keys: set<Slot>, all: set<Slot>, x: Slot)
    requires x in keys && keys !! all
    ensures (keys - {x}) + all == (keys + all) - {x}
  {
  }

  lemma DropMine(keys: set<Slot>, all: set<Slot>, x: Slot)
    requires x in all && keys !! all
    ensures keys + ((all - {x}) + {}) == (keys + all) - {x}
  {
  }

  lemma AddTaken(keys: set<Slot>, all: set<Slot>, x: Slot)
    ensures keys + ((all - {}) + {x}) == (keys + all) + {x}
  {
  }

  lemma TakeOut(all: set<Name>, n: Name)
    ensures (all - {n}) + {} == all - {n} && (all - {}) + {} == all
  {
  }

  lemma GrantRefines(c: Config, s: State, p: Pid, op: Op, t: State, taken: set<Slot>, queued: set<Name>)
    requires p in s.procs && Viewed(c, s, p, taken, queued) && Delta(s, p, op, t) && (op.Grant?)
    ensures DeltaStep(c, s, p, op, t, taken, queued)
  {
    AddTaken(s.active.Keys, taken, op.slot);
    match op.waiter {
      case None => TakeOut(queued, 0);
      case Some(n) => TakeOut(queued, n);
    }
  }

  lemma EnqueueRefines(c: Config, s: State, p: Pid, op: Op, t: State, taken: set<Slot>, queued: set<Name>)
    requires p in s.procs && Viewed(c, s, p, taken, queued) && Delta(s, p, op, t) && (op.Enqueue?)
    ensures DeltaStep(c, s, p, op, t, taken, queued)
  {
    PutBack(taken, TakenBy(s, p));
    assert (queued - {}) + {op.name} == queued + {op.name};
    SubsetSize(queued + {op.name}, s.leases.Keys);
  }

  lemma ReleaseRefines(c: Config, s: State, p: Pid, op: Op, t: State, taken: set<Slot>, queued: set<Name>)
    requires p in s.procs && Viewed(c, s, p, taken, queued) && Delta(s, p, op, t) && (op.Release?)
    ensures DeltaStep(c, s, p, op, t, taken, queued)
  {
    PutBack(queued, WaitsAs(s, p));
    PutBack(taken, TakenBy(s, p));
    if op.slot in s.active.Keys {
      DropKey(s.active.Keys, taken, op.slot);
    } else {
      DropMine(s.active.Keys, taken, op.slot);
    }
  }

  lemma WithdrawRefines(c: Config, s: State, p: Pid, op: Op, t: State, taken: set<Slot>, queued: set<Name>)
    requires p in s.procs && Viewed(c, s, p, taken, queued) && Delta(s, p, op, t) && (op.Withdraw?)
    ensures DeltaStep(c, s, p, op, t, taken, queued)
  {
  }

  lemma RuleRefines(c: Config, s: State, p: Pid, op: Op, t: State, taken: set<Slot>, queued: set<Name>)
    requires p in s.procs && Viewed(c, s, p, taken, queued) && Delta(s, p, op, t)
          && (op.Stutter? || op.SetDraining? || op.Resize?)
    ensures DeltaStep(c, s, p, op, t, taken, queued)
  {
    PutBack(queued, WaitsAs(s, p));
    PutBack(taken, TakenBy(s, p));
    HandOver(s.active.Keys, taken, TakenBy(s, p));
  }

  lemma PruneDelta(c: Config, s: State, p: Pid, a: Action, t: State)
    requires Local(c, s, p) && PruneStep(s, p, a, t)
    ensures Delta(s, p, OpOf(s, p, a, t), t)
  {
    if a.PruneTake? || a.PruneRemove? {
      PruneFileDelta(c, s, p, a, t);
    } else {
      PruneReadDelta(c, s, p, a, t);
    }
  }

  lemma PruneFileDelta(c: Config, s: State, p: Pid, a: Action, t: State)
    requires Local(c, s, p) && PruneStep(s, p, a, t) && (a.PruneTake? || a.PruneRemove?)
    ensures Delta(s, p, OpOf(s, p, a, t), t)
  {
  }

  lemma PruneReadDelta(c: Config, s: State, p: Pid, a: Action, t: State)
    requires Local(c, s, p) && PruneStep(s, p, a, t) && !(a.PruneTake? || a.PruneRemove?)
    ensures Delta(s, p, OpOf(s, p, a, t), t)
  {
  }

  lemma GateDelta(c: Config, s: State, p: Pid, a: Action, t: State)
    requires Local(c, s, p) && GateStep(s, p, a, t)
    ensures Delta(s, p, OpOf(s, p, a, t), t)
  {
  }

  lemma LockDelta(c: Config, s: State, p: Pid, t: State)
    requires Local(c, s, p) && ScanStep(s, p, LockSlot, t)
    ensures Delta(s, p, OpOf(s, p, LockSlot, t), t)
  {
    assert ListingOk(c, s, p) && SlotOk(s, p) && ShapeOk(s.procs[p]);
  }

  lemma ReclaimDelta(c: Config, s: State, p: Pid, t: State)
    requires Local(c, s, p) && ScanStep(s, p, ProbeDead, t)
    ensures Delta(s, p, OpOf(s, p, ProbeDead, t), t)
  {
  }

  lemma ScanDelta(c: Config, s: State, p: Pid, a: Action, t: State)
    requires Local(c, s, p) && ScanStep(s, p, a, t)
    ensures Delta(s, p, OpOf(s, p, a, t), t)
  {
    if a == LockSlot {
      LockDelta(c, s, p, t);
    } else if a == ProbeDead {
      ReclaimDelta(c, s, p, t);
    }
  }

  lemma GrantDelta(c: Config, s: State, p: Pid, a: Action, t: State)
    requires Local(c, s, p) && GrantStep(s, p, a, t)
    ensures Delta(s, p, OpOf(s, p, a, t), t)
  {
    if a.MarkStarting? || a.MarkStartingFails? {
      MarkDelta(c, s, p, a, t);
    } else {
      UnmarkedDelta(c, s, p, a, t);
    }
  }

  lemma MarkDelta(c: Config, s: State, p: Pid, a: Action, t: State)
    requires Local(c, s, p) && GrantStep(s, p, a, t) && (a.MarkStarting? || a.MarkStartingFails?)
    ensures Delta(s, p, OpOf(s, p, a, t), t)
  {
  }

  lemma UnmarkedDelta(c: Config, s: State, p: Pid, a: Action, t: State)
    requires Local(c, s, p) && GrantStep(s, p, a, t) && !a.MarkStarting? && !a.MarkStartingFails?
    ensures Delta(s, p, OpOf(s, p, a, t), t)
  {
  }

  lemma AdmitDelta(c: Config, s: State, p: Pid, a: Action, t: State)
    requires Local(c, s, p) && AdmitStep(c, s, p, a, t)
    ensures Delta(s, p, OpOf(s, p, a, t), t)
  {
  }

  lemma LeaseDelta(c: Config, s: State, p: Pid, a: Action, t: State)
    requires Local(c, s, p) && LeaseStep(s, p, a, t)
    ensures Delta(s, p, OpOf(s, p, a, t), t)
  {
  }

  lemma WaitDelta(c: Config, s: State, p: Pid, a: Action, t: State)
    requires Local(c, s, p) && WaitStep(s, p, a, t)
    ensures Delta(s, p, OpOf(s, p, a, t), t)
  {
    if a.QuitFree? || a.QuitErase? || a.QuitPlain? {
      QuitDelta(c, s, p, a, t);
    } else {
      PollDelta(c, s, p, a, t);
    }
  }

  lemma QuitDelta(c: Config, s: State, p: Pid, a: Action, t: State)
    requires Local(c, s, p) && WaitStep(s, p, a, t) && (a.QuitFree? || a.QuitErase? || a.QuitPlain?)
    ensures Delta(s, p, OpOf(s, p, a, t), t)
  {
  }

  lemma PollDelta(c: Config, s: State, p: Pid, a: Action, t: State)
    requires Local(c, s, p) && WaitStep(s, p, a, t) && !a.QuitFree? && !a.QuitErase? && !a.QuitPlain?
    ensures Delta(s, p, OpOf(s, p, a, t), t)
  {
  }

  lemma JobDelta(c: Config, s: State, p: Pid, a: Action, t: State)
    requires Local(c, s, p) && JobStep(s, p, a, t)
    ensures Delta(s, p, OpOf(s, p, a, t), t)
  {
    if a.MarkRunning? || a.MarkRunningFails? {
      RunningDelta(c, s, p, a, t);
    } else {
      ChildDelta(c, s, p, a, t);
    }
  }

  lemma RunningDelta(c: Config, s: State, p: Pid, a: Action, t: State)
    requires Local(c, s, p) && JobStep(s, p, a, t) && (a.MarkRunning? || a.MarkRunningFails?)
    ensures Delta(s, p, OpOf(s, p, a, t), t)
  {
  }

  lemma ChildDelta(c: Config, s: State, p: Pid, a: Action, t: State)
    requires Local(c, s, p) && JobStep(s, p, a, t) && !(a.MarkRunning? || a.MarkRunningFails?)
    ensures Delta(s, p, OpOf(s, p, a, t), t)
  {
  }

  lemma DropDelta(c: Config, s: State, p: Pid, a: Action, t: State)
    requires Local(c, s, p) && DropStep(s, p, a, t)
    ensures Delta(s, p, OpOf(s, p, a, t), t)
  {
  }

  lemma DrainDelta(c: Config, s: State, p: Pid, a: Action, t: State)
    requires Local(c, s, p) && DrainStep(s, p, a, t)
    ensures Delta(s, p, OpOf(s, p, a, t), t)
  {
  }

  lemma IdleDelta(c: Config, s: State, p: Pid, a: Action, t: State)
    requires Local(c, s, p) && IdleStep(s, p, a, t)
    ensures Delta(s, p, OpOf(s, p, a, t), t)
  {
  }

  lemma CapacityDelta(c: Config, s: State, p: Pid, a: Action, t: State)
    requires 1 <= s.capacity <= 2 && Local(c, s, p) && CapacityStep(s, p, a, t)
    ensures Delta(s, p, OpOf(s, p, a, t), t)
  {
  }

  lemma CrashDelta(c: Config, s: State, p: Pid, t: State)
    requires Local(c, s, p) && t == AfterCrash(s, p)
    ensures Delta(s, p, OpOf(s, p, Crash, t), t)
  {
  }

  lemma SearchDelta(c: Config, s: State, p: Pid, a: Action, t: State)
    requires Local(c, s, p) && (PruneStep(s, p, a, t) || GateStep(s, p, a, t) || ScanStep(s, p, a, t))
    ensures Delta(s, p, OpOf(s, p, a, t), t)
  {
    if PruneStep(s, p, a, t) {
      PruneDelta(c, s, p, a, t);
    } else if GateStep(s, p, a, t) {
      GateDelta(c, s, p, a, t);
    } else {
      ScanDelta(c, s, p, a, t);
    }
  }

  lemma EnterDelta(c: Config, s: State, p: Pid, a: Action, t: State)
    requires Local(c, s, p) && PollStep(c, s, p, a, t)
    ensures Delta(s, p, OpOf(s, p, a, t), t)
  {
    if PruneStep(s, p, a, t) || GateStep(s, p, a, t) || ScanStep(s, p, a, t) {
      SearchDelta(c, s, p, a, t);
    } else if GrantStep(s, p, a, t) {
      GrantDelta(c, s, p, a, t);
    } else if AdmitStep(c, s, p, a, t) {
      AdmitDelta(c, s, p, a, t);
    } else if LeaseStep(s, p, a, t) {
      LeaseDelta(c, s, p, a, t);
    } else {
      WaitDelta(c, s, p, a, t);
    }
  }

  lemma PermitDelta(c: Config, s: State, p: Pid, a: Action, t: State)
    requires 1 <= s.capacity <= 2 && Local(c, s, p) && PermitStep(s, p, a, t)
    ensures Delta(s, p, OpOf(s, p, a, t), t)
  {
    if JobStep(s, p, a, t) {
      JobDelta(c, s, p, a, t);
    } else if DropStep(s, p, a, t) {
      DropDelta(c, s, p, a, t);
    } else if DrainStep(s, p, a, t) || IdleStep(s, p, a, t) || CapacityStep(s, p, a, t) {
      AdminDelta(c, s, p, a, t);
    } else {
      CrashDelta(c, s, p, t);
    }
  }

  lemma AdminDelta(c: Config, s: State, p: Pid, a: Action, t: State)
    requires 1 <= s.capacity <= 2 && Local(c, s, p)
    requires DrainStep(s, p, a, t) || IdleStep(s, p, a, t) || CapacityStep(s, p, a, t)
    ensures Delta(s, p, OpOf(s, p, a, t), t)
  {
    if DrainStep(s, p, a, t) {
      DrainDelta(c, s, p, a, t);
    } else if IdleStep(s, p, a, t) {
      IdleDelta(c, s, p, a, t);
    } else {
      CapacityDelta(c, s, p, a, t);
    }
  }

  // Steps by nobody: a process starts, a child ends, a file is damaged.
  lemma FreeStutters(c: Config, s: State, p: Pid, a: Action, t: State)
    requires Inv(c, s) && FreeStep(s, p, a, t)
    ensures Abs(t) == Abs(s)
  {
    StepMoves(c, s, p, a, t);
    FreeDelta(s, p, a, t);
    PutBack(Taken(s), TakenBy(s, p));
    PutBack(Queued(s), WaitsAs(s, p));
  }

  lemma FreeDelta(s: State, p: Pid, a: Action, t: State)
    requires FreeStep(s, p, a, t)
    ensures TakenBy(t, p) == TakenBy(s, p) && WaitsAs(t, p) == WaitsAs(s, p)
    ensures t.active.Keys == s.active.Keys && SameRules(s, t)
  {
  }

  lemma StepMoves(c: Config, s: State, p: Pid, a: Action, t: State)
    requires Inv(c, s) && Next(c, s, p, a, t)
    ensures TakenBy(s, p) <= Taken(s) && WaitsAs(s, p) <= Queued(s)
    ensures Taken(t) == (Taken(s) - TakenBy(s, p)) + TakenBy(t, p)
    ensures Queued(t) == (Queued(s) - WaitsAs(s, p)) + WaitsAs(t, p)
  {
    NextInv(c, s, p, a, t);
    StepEffect(c, s, p, a, t);
    AbsMoves(c, s, p, t);
  }

  // What one process takes and waits for, by its own invariant.
  lemma OwnView(c: Config, s: State, p: Pid)
    requires Inv(c, s) && p in s.procs
    ensures forall x :: x in TakenBy(s, p) ==>
              x !in s.active && x < s.capacity && x in s.locks && s.queue == Some(p)
    ensures forall n :: n in WaitsAs(s, p) ==> n in s.leases && s.leases[n].lock.Some?
  {
    assert MineOk(c, s, p);
  }

  lemma ViewHolds(c: Config, s: State, p: Pid)
    requires Inv(c, s) && p in s.procs
    ensures Viewed(c, s, p, Taken(s), Queued(s))
  {
    forall q | q in s.procs
      ensures forall x :: x in TakenBy(s, q) ==> x !in s.active && x in s.locks && s.queue == Some(q)
      ensures forall n :: n in WaitsAs(s, q) ==> n in s.leases && s.leases[n].lock.Some?
    {
      OwnView(c, s, q);
    }
    assert MineOk(c, s, p);
  }

  // Every reachable state is a legal semaphore state.
  lemma AbsOk(c: Config, s: State)
    requires Inv(c, s)
    ensures SemOk(c.maxQueue, Abs(s))
  {
    forall q | q in s.procs
      ensures forall x :: x in TakenBy(s, q) ==> x < s.capacity
      ensures forall n :: n in WaitsAs(s, q) ==> n in s.leases
    {
      OwnView(c, s, q);
    }
    SubsetSize(Queued(s), s.leases.Keys);
  }

  ghost function StepOp(s: State, e: Event, t: State): Op {
    if FreeStep(s, e.p, e.a, t) then Stutter else OpOf(s, e.p, e.a, t)
  }

  // The protocol refines the semaphore: every step of every process is one of its
  // operations, or leaves it alone.
  lemma ProtocolRefinesSemaphore(c: Config, s: State, p: Pid, a: Action, t: State)
    requires Inv(c, s) && Next(c, s, p, a, t)
    ensures SemStep(c.maxQueue, Abs(s), StepOp(s, Event(p, a), t), Abs(t))
  {
    if FreeStep(s, p, a, t) {
      FreeStutters(c, s, p, a, t);
    } else {
      StepMoves(c, s, p, a, t);
      ViewHolds(c, s, p);
      StepDelta(c, s, p, a, t);
      var op := OpOf(s, p, a, t);
      match op
      case Grant(_, _) => GrantRefines(c, s, p, op, t, Taken(s), Queued(s));
      case Enqueue(_) => EnqueueRefines(c, s, p, op, t, Taken(s), Queued(s));
      case Release(_) => ReleaseRefines(c, s, p, op, t, Taken(s), Queued(s));
      case Withdraw(_) => WithdrawRefines(c, s, p, op, t, Taken(s), Queued(s));
      case _ => RuleRefines(c, s, p, op, t, Taken(s), Queued(s));
    }
  }

  lemma StepDelta(c: Config, s: State, p: Pid, a: Action, t: State)
    requires Inv(c, s) && p in s.procs && (PollStep(c, s, p, a, t) || PermitStep(s, p, a, t))
    ensures Delta(s, p, OpOf(s, p, a, t), t)
  {
    assert MineOk(c, s, p);
    if PollStep(c, s, p, a, t) {
      EnterDelta(c, s, p, a, t);
    } else {
      PermitDelta(c, s, p, a, t);
    }
  }

  // What the abstraction stands for: the slots of recorded children and of every permit are
  // running ...
  lemma RunningMeans(c: Config, s: State)
    requires Inv(c, s)
    ensures forall k :: Recorded(s, k) ==> k in s.tenant && s.tenant[k] in Abs(s).running
    ensures forall p :: p in s.procs && s.procs[p].slot.Some? && (Taking(s.procs[p].pc) || SeatPc(s.procs[p].pc)) ==>
              s.procs[p].slot.value in Abs(s).running
    ensures Abs(s).draining == s.drain && Abs(s).capacity == s.capacity
  {
    forall k | Recorded(s, k) ensures k in s.tenant && s.tenant[k] in Abs(s).running {
      RecordedSlots(c, s, k);
    }
    forall p | p in s.procs && s.procs[p].slot.Some? && (Taking(s.procs[p].pc) || SeatPc(s.procs[p].pc))
      ensures s.procs[p].slot.value in Abs(s).running
    {
      PermitRuns(c, s, p);
    }
  }

  lemma PermitRuns(c: Config, s: State, p: Pid)
    requires Inv(c, s) && p in s.procs && s.procs[p].slot.Some? && (Taking(s.procs[p].pc) || SeatPc(s.procs[p].pc))
    ensures s.procs[p].slot.value in Abs(s).running
  {
    assert MineOk(c, s, p);
    assert Taking(s.procs[p].pc) ==> s.procs[p].slot.value in TakenBy(s, p);
  }

  // ... and the queue is the leases that live processes wait with.
  lemma QueueMeans(s: State, n: Name)
    ensures n in Abs(s).queue <==> exists p :: p in s.procs && s.procs[p].lease == Some(n) && !s.procs[p].pc.Won?
  {
    if p :| p in s.procs && s.procs[p].lease == Some(n) && !s.procs[p].pc.Won? {
      assert n in WaitsAs(s, p);
    }
  }

  // Over a whole run the semaphore stays within its bounds at every point.
  lemma RunIsSemaphore(c: Config, ss: seq<State>, es: seq<Event>, i: nat)
    requires Run(c, ss, es) && i < |es|
    ensures SemOk(c.maxQueue, Abs(ss[i])) && |Abs(ss[i]).running| <= ss[i].capacity
    ensures SemStep(c.maxQueue, Abs(ss[i]), StepOp(ss[i], es[i], ss[i + 1]), Abs(ss[i + 1]))
  {
    RunInv(c, ss, es, i);
    assert StepAt(c, ss, es, i);
    AbsOk(c, ss[i]);
    SemKeeps(c.maxQueue, Abs(ss[i]), Stutter, Abs(ss[i]));
    ProtocolRefinesSemaphore(c, ss[i], es[i].p, es[i].a, ss[i + 1]);
  }
}
