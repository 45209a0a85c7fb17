// The slot scan of one poll: it visits every slot once, and it cannot end without
// a permit while some slot stays unlocked and free of living processes.
module ProtocolScan {
  import opened Wrappers
  import opened Protocol
  import opened ProtocolInvariant
  import opened ProtocolSafety
  import opened ProtocolRuns

  // Starting anywhere, the rotation reaches every slot at exactly one offset.
  lemma RotationVisitsOnce(cap: nat, start: nat, x: Slot) returns (k: nat)
    requires x < cap
    ensures k < cap && SlotAt(cap, start, k) == x
    ensures forall j: nat :: j < cap && SlotAt(cap, start, j) == x ==> j == k
  {
    var r := start % cap;
    k := if x >= r then x - r else x + cap - r;
    RotationValue(cap, start, k);
    forall j: nat | j < cap && SlotAt(cap, start, j) == x ensures j == k {
      RotationValue(cap, start, j);
    }
  }

  lemma RotationValue(cap: nat, start: nat, k: nat)
    requires k < cap
    ensures SlotAt(cap, start, k) == if start % cap + k < cap then start % cap + k else start % cap + k - cap
  {
    var r := start % cap;
    assert start == cap * (start / cap) + r;
    if r + k < cap {
      ModIs(start + k, cap, start / cap, r + k);
    } else {
      assert start + k == cap * (start / cap + 1) + (r + k - cap);
      ModIs(start + k, cap, start / cap + 1, r + k - cap);
    }
  }

  lemma ModIs(n: int, cap: int, q: int, r: int)
    requires cap > 0 && 0 <= r < cap && n == cap * q + r
    ensures n % cap == r
  {
    var d := n / cap - q;
    assert cap * d == r - n % cap;
    assert -1 < d < 1 by {
      MulSmall(cap, d);
    }
  }

  lemma MulSmall(cap: int, d: int)
    requires cap > 0
    ensures d >= 1 ==> cap * d >= cap
    ensures d <= -1 ==> cap * d <= -cap
  {
  }

  // The listing leads to a scan exactly for the least listed lease, and for a newcomer when
  // none is listed; everybody else finds no slot this time.
  lemma ListedExactly(s: State, p: Pid, t: State)
    requires p in s.procs && GateStep(s, p, ListWaiters, t)
    ensures p in t.procs
    ensures t.procs[p].pc.Scan? <==>
              match s.procs[p].lease
              case None => s.leases.Keys == {}
              case Some(mine) => mine in s.leases && forall n :: n in s.leases ==> mine <= n
    ensures !t.procs[p].pc.Scan? ==> t.procs[p].pc == Busy(s.leases.Keys)
  {
  }

  // A poll is refused only in a draining pool, or to a newcomer that finds one of the two
  // queue limits reached by the leases it listed.
  lemma RefusedForCause(c: Config, s: State, p: Pid, a: Action, t: State)
    requires p in s.procs && (GateStep(s, p, a, t) || AdmitStep(c, s, p, a, t)) && (a == GateShut || a == Reject)
    ensures p in t.procs && t.procs[p].pc.Quit?
    ensures a == GateShut ==> s.drain
    ensures a == Reject ==>
              && s.procs[p].lease == None && s.procs[p].pc.Busy?
              && var listed, owner := s.procs[p].pc.waiters, s.procs[p].owner;
                 || c.maxQueue <= |listed|
                 || c.maxPerOwner <= |set n | n in listed && n in s.leases && s.leases[n].owner == Some(owner)|
  {
    if a == Reject {
      var listed, owner := s.procs[p].pc.waiters, s.procs[p].owner;
      assert listed * OwnerNames(s.leases, owner)
          == set n | n in listed && n in s.leases && s.leases[n].owner == Some(owner);
    }
  }

  predicate Scanning(pc: Pc, cap: nat, start: nat) {
    InScan(pc) && pc.cap == cap && pc.start == start
  }

  // Nobody has the slot locked, and any metadata on it is readable and of processes that
  // are gone, such as what a killed supervisor leaves.
  predicate FreeSlot(s: State, x: Slot) {
    && x !in s.locks
    && (x in s.active ==>
          && !s.active[x].Corrupt? && s.active[x].sup !in s.procs
          && (s.active[x].Running? ==> s.active[x].child !in s.kids))
  }

  // p does not find slot x unreadable or its processes alive.
  predicate Undeceived(s: State, p: Pid, a: Action, x: Slot) {
    && p in s.procs && InScan(s.procs[p].pc) && s.procs[p].pc.cap > 0
    && SlotAt(s.procs[p].pc.cap, s.procs[p].pc.start, s.procs[p].pc.k) == x
    ==> a != ProbeAlive && a != ReadUnreadable
  }

  // Offset k is still ahead of the scan.
  predicate NotPast(pc: Pc, k: nat) {
    InScan(pc) && pc.k <= k
  }

  // Where a scan step leads.
  predicate ScanMoves(pc: Pc, a: Action, next: Pc) {
    match a
    case ReadAbsent => pc.Scan? && next.TryLock? && next.k == pc.k
    case ReadPresent => pc.Scan? && next.Probe? && next.k == pc.k
    case ReadUnreadable => pc.Scan? && next.Scan? && next.k == pc.k + 1
    case ProbeAlive => pc.Probe? && next.Scan? && next.k == pc.k + 1
    case ProbeDead => pc.Probe? && next.TryLock? && next.k == pc.k
    case LockSlot => pc.TryLock? && next.Won?
    case SlotBusy => pc.TryLock? && next.Scan? && next.k == pc.k + 1
    case ScanOver => pc.Scan? && pc.k == pc.cap && next.Busy?
    case _ => false
  }

  lemma ScanReads(s: State, p: Pid, a: Action, t: State)
    requires p in s.procs && ScanStep(s, p, a, t) && s.procs[p].pc.Scan?
    ensures p in t.procs && ScanMoves(s.procs[p].pc, a, t.procs[p].pc)
  {
  }

  lemma ScanProbes(s: State, p: Pid, a: Action, t: State)
    requires p in s.procs && ScanStep(s, p, a, t) && s.procs[p].pc.Probe?
    ensures p in t.procs && ScanMoves(s.procs[p].pc, a, t.procs[p].pc)
  {
  }

  lemma ScanLocks(s: State, p: Pid, a: Action, t: State)
    requires p in s.procs && ScanStep(s, p, a, t) && s.procs[p].pc.TryLock? && s.procs[p].pc.cap > 0
    ensures p in t.procs && ScanMoves(s.procs[p].pc, a, t.procs[p].pc)
    ensures a == SlotBusy ==> SlotAt(s.procs[p].pc.cap, s.procs[p].pc.start, s.procs[p].pc.k) in s.locks
  {
  }

  // A scan does not step over a free slot, and does not give up before it.
  lemma ScanStopsAtFree(s: State, p: Pid, a: Action, t: State, cap: nat, start: nat, k: nat)
    requires p in s.procs && ScanStep(s, p, a, t) && Scanning(s.procs[p].pc, cap, start) && k < cap
    requires FreeSlot(s, SlotAt(cap, start, k)) && NotPast(s.procs[p].pc, k)
    requires Undeceived(s, p, a, SlotAt(cap, start, k))
    ensures a != ScanOver
    ensures p in t.procs && if InScan(t.procs[p].pc) then NotPast(t.procs[p].pc, k) else a == LockSlot
  {
    match s.procs[p].pc {
      case Scan(_, _, _, _) => ScanReads(s, p, a, t);
      case Probe(_, _, _, _, _) => ScanProbes(s, p, a, t);
      case TryLock(_, _, _, _) => ScanLocks(s, p, a, t);
    }
  }

  ghost predicate ScansThrough(ss: seq<State>, p: Pid, cap: nat, start: nat, i: nat, j: nat)
    requires j < |ss|
  {
    forall l :: i <= l <= j ==> p in ss[l].procs && Scanning(ss[l].procs[p].pc, cap, start)
  }

  // From point i to point j the slot stays free, and p takes it as it is.
  ghost predicate StaysFree(ss: seq<State>, es: seq<Event>, p: Pid, x: Slot, i: nat, j: nat)
    requires i <= j < |es| < |ss|
  {
    && (forall l :: i <= l <= j ==> FreeSlot(ss[l], x))
    && (forall l :: i <= l <= j && es[l].p == p ==> Undeceived(ss[l], p, es[l].a, x))
  }

  lemma ScanWaitsStep(c: Config, s: State, e: Event, t: State, p: Pid, cap: nat, start: nat, k: nat)
    requires Next(c, s, e.p, e.a, t) && p in s.procs && p in t.procs && k < cap
    requires Scanning(s.procs[p].pc, cap, start) && Scanning(t.procs[p].pc, cap, start)
    requires FreeSlot(s, SlotAt(cap, start, k)) && NotPast(s.procs[p].pc, k)
    requires e.p == p ==> Undeceived(s, p, e.a, SlotAt(cap, start, k))
    ensures NotPast(t.procs[p].pc, k)
  {
    StepEffect(c, s, e.p, e.a, t);
    if e.p == p && t.procs[p] != s.procs[p] {
      ScanStopsAtFree(s, p, e.a, t, cap, start, k);
    }
  }

  lemma {:induction false} ScanWaits(c: Config, ss: seq<State>, es: seq<Event>, p: Pid, cap: nat, start: nat, k: nat,
                                     i: nat, j: nat)
    requires Steps(c, ss, es) && i <= j < |es| && k < cap
    requires ScansThrough(ss, p, cap, start, i, j) && ss[i].procs[p].pc.Scan? && ss[i].procs[p].pc.k == 0
    requires StaysFree(ss, es, p, SlotAt(cap, start, k), i, j)
    ensures NotPast(ss[j].procs[p].pc, k)
  {
    if i < j {
      var l := j - 1;
      ScanWaits(c, ss, es, p, cap, start, k, i, l);
      assert StepAt(c, ss, es, l);
      assert FreeSlot(ss[l], SlotAt(cap, start, k)) && Scanning(ss[l].procs[p].pc, cap, start);
      ScanWaitsStep(c, ss[l], es[l], ss[l + 1], p, cap, start, k);
    }
  }

  // Steps of p that end its scan.
  predicate EndsScan(p: Pid, e: Event, t: State) {
    e.p == p && (p !in t.procs || !InScan(t.procs[p].pc))
  }

  lemma ScanExits(c: Config, s: State, p: Pid, a: Action, t: State)
    requires Next(c, s, p, a, t) && p in s.procs && InScan(s.procs[p].pc) && EndsScan(p, Event(p, a), t)
    ensures ScanStep(s, p, a, t) || a == FailOut || a == Crash
  {
    NoGateStep(s, p, a, t);
    NoGrantStep(c, s, p, a, t);
    NoLeaseStep(s, p, a, t);
    NoFreeStep(s, p, a, t);
    if JobStep(s, p, a, t) || DropStep(s, p, a, t) {
      NoJobStep(s, p, a, t);
    } else if DrainStep(s, p, a, t) || IdleStep(s, p, a, t) || CapacityStep(s, p, a, t) {
      NoAdminStep(s, p, a, t);
    }
  }

  lemma NoFreeStep(s: State, p: Pid, a: Action, t: State)
    requires p in s.procs && InScan(s.procs[p].pc) && EndsScan(p, Event(p, a), t)
    ensures !FreeStep(s, p, a, t)
  {
  }

  lemma NoGateStep(s: State, p: Pid, a: Action, t: State)
    requires p in s.procs && InScan(s.procs[p].pc)
    ensures !PruneStep(s, p, a, t) && (GateStep(s, p, a, t) ==> a == FailOut)
  {
  }

  lemma NoGrantStep(c: Config, s: State, p: Pid, a: Action, t: State)
    requires p in s.procs && InScan(s.procs[p].pc)
    ensures !GrantStep(s, p, a, t) && !AdmitStep(c, s, p, a, t)
  {
  }

  lemma NoLeaseStep(s: State, p: Pid, a: Action, t: State)
    requires p in s.procs && InScan(s.procs[p].pc)
    ensures !LeaseStep(s, p, a, t) && !WaitStep(s, p, a, t)
  {
  }

  lemma NoJobStep(s: State, p: Pid, a: Action, t: State)
    requires p in s.procs && InScan(s.procs[p].pc)
    ensures !JobStep(s, p, a, t) && !DropStep(s, p, a, t)
  {
  }

  lemma NoAdminStep(s: State, p: Pid, a: Action, t: State)
    requires p in s.procs && InScan(s.procs[p].pc)
    ensures !DrainStep(s, p, a, t) && !IdleStep(s, p, a, t) && !CapacityStep(s, p, a, t)
  {
  }

  // While a slot below the capacity stays unlocked, with no metadata or with metadata of
  // processes that are gone, a scan that began at offset zero never ends empty-handed: it
  // ends with a lock, unless an error or a kill ends it.
  lemma FreeSlotIsGranted(c: Config, ss: seq<State>, es: seq<Event>, p: Pid, cap: nat, start: nat, x: Slot, i: nat,
                          j: nat)
    requires Steps(c, ss, es) && i <= j < |es| && x < cap && EndsScan(p, es[j], ss[j + 1])
    requires ScansThrough(ss, p, cap, start, i, j) && ss[i].procs[p].pc.Scan? && ss[i].procs[p].pc.k == 0
    requires StaysFree(ss, es, p, x, i, j)
    ensures es[j].a == LockSlot || es[j].a == FailOut || es[j].a == Crash
  {
    var k := RotationVisitsOnce(cap, start, x);
    ScanWaits(c, ss, es, p, cap, start, k, i, j);
    assert StepAt(c, ss, es, j);
    assert FreeSlot(ss[j], x) && Scanning(ss[j].procs[p].pc, cap, start);
    ScanExits(c, ss[j], p, es[j].a, ss[j + 1]);
    if es[j].a != FailOut && es[j].a != Crash {
      ScanStopsAtFree(ss[j], p, es[j].a, ss[j + 1], cap, start, k);
    }
  }
}
