// The scan as a loop (RuntimeFiles) is the scan as single steps (Protocol) when
// nobody else acts in between.
module SoloScan {
  import opened Wrappers
  import opened Protocol
  import opened ProtocolInvariant
  import opened ProtocolRuns
  import opened RuntimeFiles
  import opened Occupancy

  // A run of steps of process p alone.
  ghost predicate SoloRun(c: Config, p: Pid, ss: seq<State>, es: seq<Event>) {
    Steps(c, ss, es) && forall e :: e in es ==> e.p == p
  }

  lemma OneStep(c: Config, s: State, p: Pid, a: Action, t: State)
    requires p in s.procs && ScanStep(s, p, a, t)
    ensures SoloRun(c, p, [s, t], [Event(p, a)])
  {
    assert StepAt(c, [s, t], [Event(p, a)], 0);
  }

  // Two solo runs of one step each.
  lemma TwoSteps(c: Config, p: Pid, s: State, a: Action, m: State, b: Action, t: State)
    requires SoloRun(c, p, [s, m], [Event(p, a)]) && SoloRun(c, p, [m, t], [Event(p, b)])
    ensures SoloRun(c, p, [s, m, t], [Event(p, a), Event(p, b)])
  {
    Join(c, p, [s, m], [Event(p, a)], [m, t], [Event(p, b)]);
    assert [s, m] + [m, t][1..] == [s, m, t];
    assert [Event(p, a)] + [Event(p, b)] == [Event(p, a), Event(p, b)];
  }

  lemma Join(c: Config, p: Pid, ss: seq<State>, es: seq<Event>, tt: seq<State>, fs: seq<Event>)
    requires SoloRun(c, p, ss, es) && SoloRun(c, p, tt, fs) && ss[|ss| - 1] == tt[0]
    ensures SoloRun(c, p, ss + tt[1..], es + fs)
  {
    var all, events := ss + tt[1..], es + fs;
    forall i: nat | i < |events| ensures StepAt(c, all, events, i) {
      if i < |es| {
        assert StepAt(c, ss, es, i);
      } else {
        assert StepAt(c, tt, fs, i - |es|);
        assert all[i] == tt[i - |es|] && all[i + 1] == tt[i - |es| + 1];
      }
    }
  }

  predicate AtOffset(s: State, p: Pid, w: set<Name>, cap: nat, start: nat, k: nat) {
    p in s.procs && s.procs[p].pc == Scan(w, cap, start, k) && 0 < cap && k <= cap
  }

  // What a solo scan leaves alone.
  ghost predicate SameElse(s: State, p: Pid, t: State) {
    && p in s.procs && p in t.procs && t.procs.Keys == s.procs.Keys && t.kids == s.kids
    && t.queue == s.queue && t.leases == s.leases && t.used == s.used && t.drain == s.drain && t.capacity == s.capacity
    && t.procs[p].owner == s.procs[p].owner && t.procs[p].lease == s.procs[p].lease
    && t.procs[p].inQueue == s.procs[p].inQueue
  }

  // The lock attempt on slot x, after its metadata was found absent or removed.
  lemma SoloLock(c: Config, s: State, p: Pid, w: set<Name>, cap: nat, start: nat, k: nat) returns (a: Action, t: State)
    requires p in s.procs && s.procs[p].pc == TryLock(w, cap, start, k) && 0 < cap && k < cap
    ensures SoloRun(c, p, [s, t], [Event(p, a)]) && SameElse(s, p, t) && t.active == s.active
    ensures var x := SlotAt(cap, start, k);
            if x !in s.locks then
              t.procs[p].pc == Won && t.procs[p].slot == Some(x) && t.locks == s.locks[x := p]
            else AtOffset(t, p, w, cap, start, k + 1) && t.locks == s.locks
  {
    var pr, x := s.procs[p], SlotAt(cap, start, k);
    if x !in s.locks {
      a, t := LockSlot, Put(s, p, pr.(pc := Won, slot := Some(x))).(locks := s.locks[x := p]);
    } else {
      a, t := SlotBusy, Put(s, p, pr.(pc := Scan(w, cap, start, k + 1)));
    }
    OneStep(c, s, p, a, t);
  }

  lemma ReadStep(c: Config, s: State, p: Pid, w: set<Name>, cap: nat, start: nat, k: nat) returns (a: Action, t: State)
    requires AtOffset(s, p, w, cap, start, k) && k < cap
    ensures SoloRun(c, p, [s, t], [Event(p, a)]) && SameElse(s, p, t) && t.active == s.active && t.locks == s.locks
    ensures var x := SlotAt(cap, start, k);
            t.procs[p].pc == if x !in s.active then TryLock(w, cap, start, k)
                             else if s.active[x].Corrupt? then Scan(w, cap, start, k + 1)
                             else Probe(w, cap, start, k, s.active[x])
  {
    var pr, x := s.procs[p], SlotAt(cap, start, k);
    if x !in s.active {
      a, t := ReadAbsent, Put(s, p, pr.(pc := TryLock(w, cap, start, k)));
    } else if s.active[x].Corrupt? {
      a, t := ReadUnreadable, Put(s, p, pr.(pc := Scan(w, cap, start, k + 1)));
    } else {
      a, t := ReadPresent, Put(s, p, pr.(pc := Probe(w, cap, start, k, s.active[x])));
    }
    OneStep(c, s, p, a, t);
  }

  // Reading the metadata of one slot and probing its processes: on to the lock attempt,
  // or past the slot when it is quarantined.
  lemma SoloRead(c: Config, s: State, p: Pid, w: set<Name>, cap: nat, start: nat, k: nat, alive: nat -> bool)
      returns (ss: seq<State>, es: seq<Event>)
    requires AtOffset(s, p, w, cap, start, k) && k < cap && Honest(s, alive)
    ensures SoloRun(c, p, ss, es) && ss[0] == s
    ensures var t, x := ss[|ss| - 1], SlotAt(cap, start, k);
            && SameElse(s, p, t) && t.locks == s.locks && t.active == Reclaimed(s.active, alive, {x})
            && t.procs[p].pc == (if Quarantined(s.active, alive, x) then Scan(w, cap, start, k + 1)
                                 else TryLock(w, cap, start, k))
  {
    var a, m := ReadStep(c, s, p, w, cap, start, k);
    ss, es := [s, m], [Event(p, a)];
    ReclaimedOne(s.active, alive, SlotAt(cap, start, k));
    if m.procs[p].pc.Probe? {
      var b, t := SoloProbe(c, m, p, w, cap, start, k, alive);
      TwoSteps(c, p, s, a, m, b, t);
      ss, es := [s, m, t], [Event(p, a), Event(p, b)];
    }
  }

  lemma SoloProbe(c: Config, s: State, p: Pid, w: set<Name>, cap: nat, start: nat, k: nat, alive: nat -> bool)
      returns (a: Action, t: State)
    requires 0 < cap && k < cap && Honest(s, alive) && SlotAt(cap, start, k) in s.active
    requires p in s.procs && s.procs[p].pc == Probe(w, cap, start, k, s.active[SlotAt(cap, start, k)])
    requires !s.active[SlotAt(cap, start, k)].Corrupt?
    ensures SoloRun(c, p, [s, t], [Event(p, a)]) && SameElse(s, p, t) && t.locks == s.locks
    ensures t.active == Reclaimed(s.active, alive, {SlotAt(cap, start, k)})
    ensures t.procs[p].pc == if Quarantined(s.active, alive, SlotAt(cap, start, k)) then Scan(w, cap, start, k + 1)
                             else TryLock(w, cap, start, k)
  {
    var pr, x := s.procs[p], SlotAt(cap, start, k);
    ReclaimedOne(s.active, alive, x);
    if Quarantined(s.active, alive, x) {
      a, t := ProbeAlive, Put(s, p, pr.(pc := Scan(w, cap, start, k + 1)));
    } else {
      a := ProbeDead;
      t := Put(s, p, pr.(pc := TryLock(w, cap, start, k))).(
             active := Without(s.active, x), lost := s.lost + KidsAt(s, x));
      WithoutIs(s.active, x);
    }
    OneStep(c, s, p, a, t);
  }

  // The slots from offset k up to m.
  function TriedFrom(cap: nat, start: nat, k: nat, m: nat): set<Slot>
    requires cap > 0
  {
    set j: nat | k <= j < m :: SlotAt(cap, start, j)
  }

  lemma ReclaimedMore(active: map<Slot, Meta>, alive: nat -> bool, xs: set<Slot>, ys: set<Slot>)
    ensures Reclaimed(Reclaimed(active, alive, xs), alive, ys) == Reclaimed(active, alive, xs + ys)
  {
  }

  lemma {:induction false} ReclaimedScan(active: map<Slot, Meta>, locks: map<Slot, Pid>, alive: nat -> bool,
                                         xs: set<Slot>, cap: nat, start: nat, k: nat)
    requires cap > 0
    ensures FirstUsable(Reclaimed(active, alive, xs), locks, alive, cap, start, k)
         == FirstUsable(active, locks, alive, cap, start, k)
    decreases cap - k
  {
    if k < cap {
      ReclaimedScan(active, locks, alive, xs, cap, start, k + 1);
    }
  }

  // How far a scan from offset k reads.
  function Reach(first: nat, cap: nat): nat {
    if first < cap then first + 1 else cap
  }

  // A scan by p alone, from offset k on, ends as the loop does: with the lock on the
  // first usable slot, or empty-handed, and with the same files reclaimed.
  lemma {:induction false} SoloScanFrom(c: Config, s: State, p: Pid, w: set<Name>, cap: nat, start: nat, k: nat,
                                        alive: nat -> bool)
      returns (ss: seq<State>, es: seq<Event>)
    requires AtOffset(s, p, w, cap, start, k) && Honest(s, alive)
    ensures SoloRun(c, p, ss, es) && ss[0] == s
    ensures var t, f := ss[|ss| - 1], FirstUsable(s.active, s.locks, alive, cap, start, k);
            && SameElse(s, p, t)
            && t.active == Reclaimed(s.active, alive, TriedFrom(cap, start, k, Reach(f, cap)))
            && (if f < cap then
                  t.procs[p].pc == Won && t.procs[p].slot == Some(SlotAt(cap, start, f))
                  && t.locks == s.locks[SlotAt(cap, start, f) := p]
                else t.procs[p].pc == Busy(w) && t.locks == s.locks)
    decreases cap - k
  {
    if k == cap {
      ss, es := SoloOver(c, s, p, w, cap, start);
      assert Reclaimed(s.active, alive, TriedFrom(cap, start, k, cap)) == s.active;
    } else {
      ss, es := SoloOffset(c, s, p, w, cap, start, k, alive);
      TriedSplit(s.active, s.locks, alive, cap, start, k);
      if !Usable(s.active, s.locks, alive, SlotAt(cap, start, k)) {
        var tt, fs := SoloScanFrom(c, ss[|ss| - 1], p, w, cap, start, k + 1, alive);
        Join(c, p, ss, es, tt, fs);
        ss, es := ss + tt[1..], es + fs;
        assert ss[|ss| - 1] == tt[|tt| - 1];
      }
    }
  }

  lemma SoloOver(c: Config, s: State, p: Pid, w: set<Name>, cap: nat, start: nat)
      returns (ss: seq<State>, es: seq<Event>)
    requires AtOffset(s, p, w, cap, start, cap)
    ensures SoloRun(c, p, ss, es) && ss[0] == s
    ensures var t := ss[|ss| - 1];
            SameElse(s, p, t) && t.procs[p].pc == Busy(w) && t.active == s.active && t.locks == s.locks
  {
    var t := Put(s, p, s.procs[p].(pc := Busy(w)));
    OneStep(c, s, p, ScanOver, t);
    ss, es := [s, t], [Event(p, ScanOver)];
  }

  // A scan from offset k is its first slot and the scan from k + 1.
  lemma TriedSplit(active: map<Slot, Meta>, locks: map<Slot, Pid>, alive: nat -> bool, cap: nat, start: nat, k: nat)
    requires cap > 0 && k < cap
    ensures var x := SlotAt(cap, start, k);
            var after, f := Reclaimed(active, alive, {x}), FirstUsable(active, locks, alive, cap, start, k);
            if Usable(active, locks, alive, x) then f == k && TriedFrom(cap, start, k, Reach(f, cap)) == {x}
            else
              FirstUsable(after, locks, alive, cap, start, k + 1) == f
              && Reclaimed(after, alive, TriedFrom(cap, start, k + 1, Reach(f, cap)))
                 == Reclaimed(active, alive, TriedFrom(cap, start, k, Reach(f, cap)))
  {
    var x := SlotAt(cap, start, k);
    if Usable(active, locks, alive, x) {
      assert TriedFrom(cap, start, k, k + 1) == {x};
    } else {
      var f := FirstUsable(active, locks, alive, cap, start, k + 1);
      ReclaimedScan(active, locks, alive, {x}, cap, start, k + 1);
      FirstUsableIsFirst(active, locks, alive, cap, start, k + 1);
      ReclaimedMore(active, alive, {x}, TriedFrom(cap, start, k + 1, Reach(f, cap)));
      assert {x} + TriedFrom(cap, start, k + 1, Reach(f, cap)) == TriedFrom(cap, start, k, Reach(f, cap));
    }
  }

  lemma SoloOffset(c: Config, s: State, p: Pid, w: set<Name>, cap: nat, start: nat, k: nat, alive: nat -> bool)
      returns (ss: seq<State>, es: seq<Event>)
    requires AtOffset(s, p, w, cap, start, k) && k < cap && Honest(s, alive)
    ensures SoloRun(c, p, ss, es) && ss[0] == s
    ensures var t, x := ss[|ss| - 1], SlotAt(cap, start, k);
            && SameElse(s, p, t) && t.active == Reclaimed(s.active, alive, {x})
            && (if Usable(s.active, s.locks, alive, x) then
                  t.procs[p].pc == Won && t.procs[p].slot == Some(x) && t.locks == s.locks[x := p]
                else AtOffset(t, p, w, cap, start, k + 1) && t.locks == s.locks)
  {
    ss, es := SoloRead(c, s, p, w, cap, start, k, alive);
    var m := ss[|ss| - 1];
    if !Quarantined(s.active, alive, SlotAt(cap, start, k)) {
      var a, t := SoloLock(c, m, p, w, cap, start, k);
      Join(c, p, ss, es, [m, t], [Event(p, a)]);
      ss, es := ss + [m, t][1..], es + [Event(p, a)];
      assert ss[|ss| - 1] == t;
    }
  }

  // The slot TrySlots returns is the slot the machine's scan wins when p runs alone.
  lemma ScanRefines(c: Config, s: State, p: Pid, w: set<Name>, alive: nat -> bool)
      returns (ss: seq<State>, es: seq<Event>)
    requires s.capacity > 0 && AtOffset(s, p, w, s.capacity, p % s.capacity, 0) && Honest(s, alive)
    ensures SoloRun(c, p, ss, es) && ss[0] == s
    ensures var t, choice := ss[|ss| - 1], Choice(s.active, s.locks, alive, s.capacity, p);
            && SameElse(s, p, t)
            && t.active == AfterScan(s.active, s.locks, alive, s.capacity, p)
            && t.locks == (if choice.Some? then s.locks[choice.value := p] else s.locks)
            && (if choice.Some? then t.procs[p].pc == Won && t.procs[p].slot == choice else t.procs[p].pc == Busy(w))
  {
    var cap, start := s.capacity, p % s.capacity;
    ss, es := SoloScanFrom(c, s, p, w, cap, start, 0, alive);
    var f := FirstUsable(s.active, s.locks, alive, cap, start, 0);
    FirstUsableIsFirst(s.active, s.locks, alive, cap, start, 0);
    assert TriedFrom(cap, start, 0, Reach(f, cap)) == Tried(cap, start, Reach(f, cap));
  }
}
