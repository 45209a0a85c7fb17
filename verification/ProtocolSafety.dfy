// The invariant over every step, and the bound on live children.
module ProtocolSafety {
  import opened Wrappers
  import opened Protocol
  import opened ProtocolInvariant

  // ---- children ----------------------------------------------------------

  // A live child that some file still accounts for.
  ghost predicate Recorded(s: State, k: Child) {
    k in s.kids && k !in s.lost
  }

  ghost predicate Backed(s: State, k: Child, x: Slot) {
    && x in s.active
    && match s.active[x]
       case Corrupt => true
       case Running(_, child) => child == k
       case Starting(sup) =>
         sup in s.procs && s.procs[sup].slot == Some(x) && s.procs[sup].pc == Spawned(k)
  }

  predicate KidPc(pc: Pc) {
    pc.Marked? || pc.Ready? || pc.Spawned? || pc.Attached? || pc.Closing?
  }

  // A permit sees no child but its own on its slot.
  ghost predicate Alone(s: State, p: Pid, k: Child)
    requires p in s.procs
  {
    && k in s.tenant
    && (KidPc(s.procs[p].pc) && s.procs[p].slot == Some(s.tenant[k]) ==>
          s.procs[p].pc == Spawned(k) || s.procs[p].pc == Attached(k))
  }

  ghost predicate KidInv(s: State) {
    && (forall k :: Recorded(s, k) ==> k in s.tenant && Backed(s, k, s.tenant[k]))
    && (forall k, l :: Recorded(s, k) && Recorded(s, l) && k != l ==> s.tenant[k] != s.tenant[l])
    && (forall p, k :: p in s.procs && Recorded(s, k) ==> Alone(s, p, k))
  }

  // Steps that neither touch a child nor its slot.
  lemma KidFrame(s: State, p: Pid, t: State)
    requires KidInv(s)
    requires t.kids <= s.kids && t.tenant == s.tenant && t.lost == s.lost
    requires forall x :: x in s.active ==> x in t.active && (t.active[x] == s.active[x] || t.active[x].Corrupt?)
    requires forall q :: q != p && q in s.procs ==> q in t.procs && t.procs[q] == s.procs[q]
    requires forall q :: q != p && q in t.procs ==> q in s.procs
    requires p in s.procs ==> !s.procs[p].pc.Spawned? || (p in t.procs && t.procs[p] == s.procs[p])
    requires p in t.procs && KidPc(t.procs[p].pc) ==>
               p in s.procs && KidPc(s.procs[p].pc) && t.procs[p].slot == s.procs[p].slot
               && (t.procs[p] == s.procs[p] || !s.procs[p].pc.Attached? || s.procs[p].pc.child !in t.kids)
    ensures KidInv(t)
  {
    forall q, k | q in t.procs && Recorded(t, k) ensures Alone(t, q, k) {
      assert Recorded(s, k);
      if q in s.procs {
        assert Alone(s, q, k);
      }
    }
    forall k | Recorded(t, k) ensures k in t.tenant && Backed(t, k, t.tenant[k]) {
      assert Recorded(s, k);
    }
  }

  lemma MarkStartingKids(c: Config, s: State, p: Pid, a: Action, t: State)
    requires Sound(c, s, p) && KidInv(s) && GrantStep(s, p, a, t) && (a.MarkStarting? || a.MarkStartingFails?)
    ensures KidInv(t)
  {
    forall k | Recorded(t, k)
      ensures k in t.tenant && t.tenant[k] != s.procs[p].slot.value && Backed(t, k, t.tenant[k])
    {
      assert Recorded(s, k);
    }
    forall q, k | q in t.procs && Recorded(t, k) ensures Alone(t, q, k) {
      assert Recorded(s, k) && Alone(s, q, k);
    }
  }

  lemma GrantKids(c: Config, s: State, p: Pid, a: Action, t: State)
    requires Sound(c, s, p) && KidInv(s) && GrantStep(s, p, a, t)
    ensures KidInv(t)
  {
    if a.MarkStarting? || a.MarkStartingFails? {
      MarkStartingKids(c, s, p, a, t);
    } else {
      KidFrame(s, p, t);
    }
  }

  lemma ProbeKids(c: Config, s: State, p: Pid, t: State)
    requires Sound(c, s, p) && KidInv(s) && ScanStep(s, p, ProbeDead, t)
    ensures KidInv(t)
  {
    forall k | Recorded(t, k) ensures k in t.tenant && Backed(t, k, t.tenant[k]) {
      assert Recorded(s, k);
    }
    forall q, k | q in t.procs && Recorded(t, k) ensures Alone(t, q, k) {
      assert Recorded(s, k) && Alone(s, q, k);
    }
  }

  lemma DropKids(c: Config, s: State, p: Pid, a: Action, t: State)
    requires Sound(c, s, p) && KidInv(s) && DropStep(s, p, a, t)
    ensures KidInv(t)
  {
    if a.Unmark? {
      forall k | Recorded(t, k) ensures k in t.tenant && Backed(t, k, t.tenant[k]) {
        assert Recorded(s, k) && Alone(s, p, k);
      }
      forall q, k | q in t.procs && Recorded(t, k) ensures Alone(t, q, k) {
        assert Recorded(s, k) && Alone(s, q, k);
      }
    } else {
      KidFrame(s, p, t);
    }
  }

  lemma CrashKids(c: Config, s: State, p: Pid, t: State)
    requires Sound(c, s, p) && KidInv(s) && t == AfterCrash(s, p)
    ensures KidInv(t)
  {
    forall k | Recorded(t, k) ensures k in t.tenant && Backed(t, k, t.tenant[k]) {
      assert Recorded(s, k) && Alone(s, p, k);
    }
    forall q, k | q in t.procs && Recorded(t, k) ensures Alone(t, q, k) {
      assert Recorded(s, k) && Alone(s, q, k);
    }
  }

  // ---- every step ---------------------------------------------------------

  ghost predicate AllMine(c: Config, s: State) {
    forall p: Pid :: MineOk(c, s, p)
  }

  // The invariant of every reachable state.
  ghost predicate Inv(c: Config, s: State) {
    AllMine(c, s) && SharedOk(c, s) && KidInv(s)
  }

  lemma FactsHold(c: Config, s: State)
    requires AllMine(c, s)
    ensures Facts(s)
  {
    forall q, x | Seat(s, q, x) ensures Named(s, q, x) && OwnsSlot(s, q, x) {
      assert MineOk(c, s, q);
    }
    forall q, n | Removes(s, q, n) ensures n in s.used {
      assert MineOk(c, s, q);
    }
  }

  lemma SoundNow(c: Config, s: State, p: Pid)
    requires AllMine(c, s) && SharedOk(c, s) && p in s.procs
    ensures Sound(c, s, p)
  {
    FactsHold(c, s);
  }

  lemma InitInv(c: Config, s: State)
    requires Init(c, s)
    ensures Inv(c, s)
  {
    forall o ensures OwnerNames(s.leases, o) == {} {
    }
  }

  // A process that keeps its own invariant and its promise keeps everyone's.
  lemma Everyone(c: Config, s: State, p: Pid, t: State)
    requires AllMine(c, s) && Kept(c, s, p, t) && (p in t.procs ==> Local(c, t, p))
    ensures AllMine(c, t)
  {
    forall q: Pid ensures MineOk(c, t, q) {
      if q != p {
        assert MineOk(c, s, q);
        OthersKeep(c, s, p, t, q);
      }
    }
  }

  lemma AllLocks(c: Config, s: State)
    requires AllMine(c, s)
    ensures forall q: Pid :: LocksOk(s, q)
  {
    forall q: Pid ensures LocksOk(s, q) {
      assert MineOk(c, s, q);
    }
  }

  lemma PruneKids(c: Config, s: State, p: Pid, a: Action, t: State)
    requires p in s.procs && KidInv(s) && PruneStep(s, p, a, t)
    ensures KidInv(t)
  {
    KidFrame(s, p, t);
  }

  lemma PruneInv(c: Config, s: State, p: Pid, a: Action, t: State)
    requires Inv(c, s) && p in s.procs && PruneStep(s, p, a, t)
    ensures Inv(c, t)
  {
    SoundNow(c, s, p);
    PruneKeeps(c, s, p, a, t);
    PruneLocal(c, s, p, a, t);
    Everyone(c, s, p, t);
    PruneKids(c, s, p, a, t);
  }

  lemma GateKids(c: Config, s: State, p: Pid, a: Action, t: State)
    requires p in s.procs && KidInv(s) && GateStep(s, p, a, t)
    ensures KidInv(t)
  {
    KidFrame(s, p, t);
  }

  lemma GateInv(c: Config, s: State, p: Pid, a: Action, t: State)
    requires Inv(c, s) && p in s.procs && GateStep(s, p, a, t)
    ensures Inv(c, t)
  {
    SoundNow(c, s, p);
    GateKeeps(c, s, p, a, t);
    GateLocal(c, s, p, a, t);
    Everyone(c, s, p, t);
    GateKids(c, s, p, a, t);
  }

  lemma ScanKids(c: Config, s: State, p: Pid, a: Action, t: State)
    requires p in s.procs && Sound(c, s, p) && KidInv(s) && ScanStep(s, p, a, t)
    ensures KidInv(t)
  {
    if a.ProbeDead? {
      ProbeKids(c, s, p, t);
    } else {
      KidFrame(s, p, t);
    }
  }

  lemma ScanInv(c: Config, s: State, p: Pid, a: Action, t: State)
    requires Inv(c, s) && p in s.procs && ScanStep(s, p, a, t)
    ensures Inv(c, t)
  {
    SoundNow(c, s, p);
    ScanKeeps(c, s, p, a, t);
    ScanLocal(c, s, p, a, t);
    Everyone(c, s, p, t);
    ScanKids(c, s, p, a, t);
  }

  lemma GrantInv(c: Config, s: State, p: Pid, a: Action, t: State)
    requires Inv(c, s) && p in s.procs && GrantStep(s, p, a, t)
    ensures Inv(c, t)
  {
    SoundNow(c, s, p);
    GrantKeeps(c, s, p, a, t);
    GrantLocal(c, s, p, a, t);
    Everyone(c, s, p, t);
    GrantKids(c, s, p, a, t);
  }

  lemma AdmitKids(c: Config, s: State, p: Pid, a: Action, t: State)
    requires p in s.procs && KidInv(s) && AdmitStep(c, s, p, a, t)
    ensures KidInv(t)
  {
    KidFrame(s, p, t);
  }

  lemma AdmitInv(c: Config, s: State, p: Pid, a: Action, t: State)
    requires Inv(c, s) && p in s.procs && AdmitStep(c, s, p, a, t)
    ensures Inv(c, t)
  {
    SoundNow(c, s, p);
    AdmitKeeps(c, s, p, a, t);
    AdmitLocal(c, s, p, a, t);
    Everyone(c, s, p, t);
    AdmitKids(c, s, p, a, t);
  }

  lemma LeaseKids(c: Config, s: State, p: Pid, a: Action, t: State)
    requires p in s.procs && KidInv(s) && LeaseStep(s, p, a, t)
    ensures KidInv(t)
  {
    KidFrame(s, p, t);
  }

  lemma LeaseInv(c: Config, s: State, p: Pid, a: Action, t: State)
    requires Inv(c, s) && p in s.procs && LeaseStep(s, p, a, t)
    ensures Inv(c, t)
  {
    SoundNow(c, s, p);
    LeaseKeeps(c, s, p, a, t);
    LeaseLocal(c, s, p, a, t);
    Everyone(c, s, p, t);
    LeaseKids(c, s, p, a, t);
  }

  lemma WaitKids(c: Config, s: State, p: Pid, a: Action, t: State)
    requires p in s.procs && KidInv(s) && WaitStep(s, p, a, t)
    ensures KidInv(t)
  {
    KidFrame(s, p, t);
  }

  lemma WaitInv(c: Config, s: State, p: Pid, a: Action, t: State)
    requires Inv(c, s) && p in s.procs && WaitStep(s, p, a, t)
    ensures Inv(c, t)
  {
    SoundNow(c, s, p);
    WaitKeeps(c, s, p, a, t);
    WaitLocal(c, s, p, a, t);
    Everyone(c, s, p, t);
    WaitKids(c, s, p, a, t);
  }

  lemma ReapKids(s: State, p: Pid, a: Action, t: State)
    requires p in s.procs && KidInv(s) && JobStep(s, p, a, t) && (a.SpawnFails? || a.Reap? || a.ReapByForce?)
    ensures KidInv(t)
  {
    KidFrame(s, p, t);
  }

  lemma SpawnKids(c: Config, s: State, p: Pid, a: Action, t: State)
    requires Inv(c, s) && p in s.procs && JobStep(s, p, a, t) && a.Spawn?
    ensures KidInv(t)
  {
    SoundNow(c, s, p);
    AllLocks(c, s);
    var k := a.child;
    forall l | l != k && Recorded(t, l) ensures Recorded(s, l) && s.tenant[l] != s.procs[p].slot.value {
      assert Recorded(s, l) && Alone(s, p, l);
    }
    forall q, l | q in t.procs && Recorded(t, l) ensures Alone(t, q, l) {
      if l != k {
        assert Alone(s, q, l);
      } else if q != p {
        assert OwnsSlot(s, p, s.procs[p].slot.value) && LocksOk(s, q);
      }
    }
  }

  lemma MarkKids(c: Config, s: State, p: Pid, a: Action, t: State)
    requires Inv(c, s) && p in s.procs && JobStep(s, p, a, t) && (a.MarkRunning? || a.MarkRunningFails?)
    ensures KidInv(t)
  {
    SoundNow(c, s, p);
    forall k | Recorded(t, k) ensures k in t.tenant && Backed(t, k, t.tenant[k]) {
      assert Recorded(s, k) && Alone(s, p, k);
    }
    forall q, k | q in t.procs && Recorded(t, k) ensures Alone(t, q, k) {
      assert Recorded(s, k) && Alone(s, q, k);
    }
  }

  lemma JobKids(c: Config, s: State, p: Pid, a: Action, t: State)
    requires Inv(c, s) && p in s.procs && JobStep(s, p, a, t)
    ensures KidInv(t)
  {
    if a.Spawn? {
      SpawnKids(c, s, p, a, t);
    } else if a.MarkRunning? || a.MarkRunningFails? {
      MarkKids(c, s, p, a, t);
    } else {
      ReapKids(s, p, a, t);
    }
  }

  lemma JobInv(c: Config, s: State, p: Pid, a: Action, t: State)
    requires Inv(c, s) && p in s.procs && JobStep(s, p, a, t)
    ensures Inv(c, t)
  {
    SoundNow(c, s, p);
    JobKeeps(c, s, p, a, t);
    JobLocal(c, s, p, a, t);
    Everyone(c, s, p, t);
    JobKids(c, s, p, a, t);
  }

  lemma DropInv(c: Config, s: State, p: Pid, a: Action, t: State)
    requires Inv(c, s) && p in s.procs && DropStep(s, p, a, t)
    ensures Inv(c, t)
  {
    SoundNow(c, s, p);
    DropKeeps(c, s, p, a, t);
    DropLocal(c, s, p, a, t);
    Everyone(c, s, p, t);
    DropKids(c, s, p, a, t);
  }

  lemma DrainKids(c: Config, s: State, p: Pid, a: Action, t: State)
    requires p in s.procs && KidInv(s) && DrainStep(s, p, a, t)
    ensures KidInv(t)
  {
    KidFrame(s, p, t);
  }

  lemma DrainInv(c: Config, s: State, p: Pid, a: Action, t: State)
    requires Inv(c, s) && p in s.procs && DrainStep(s, p, a, t)
    ensures Inv(c, t)
  {
    SoundNow(c, s, p);
    DrainKeeps(c, s, p, a, t);
    DrainLocal(c, s, p, a, t);
    Everyone(c, s, p, t);
    DrainKids(c, s, p, a, t);
  }

  lemma IdleKids(c: Config, s: State, p: Pid, a: Action, t: State)
    requires p in s.procs && KidInv(s) && IdleStep(s, p, a, t)
    ensures KidInv(t)
  {
    KidFrame(s, p, t);
  }

  lemma IdleInv(c: Config, s: State, p: Pid, a: Action, t: State)
    requires Inv(c, s) && p in s.procs && IdleStep(s, p, a, t)
    ensures Inv(c, t)
  {
    SoundNow(c, s, p);
    IdleKeeps(c, s, p, a, t);
    IdleLocal(c, s, p, a, t);
    Everyone(c, s, p, t);
    IdleKids(c, s, p, a, t);
  }

  lemma CapacityKids(c: Config, s: State, p: Pid, a: Action, t: State)
    requires p in s.procs && KidInv(s) && CapacityStep(s, p, a, t)
    ensures KidInv(t)
  {
    KidFrame(s, p, t);
  }

  lemma CapacityInv(c: Config, s: State, p: Pid, a: Action, t: State)
    requires Inv(c, s) && p in s.procs && CapacityStep(s, p, a, t)
    ensures Inv(c, t)
  {
    SoundNow(c, s, p);
    CapacityKeeps(c, s, p, a, t);
    CapacityLocal(c, s, p, a, t);
    Everyone(c, s, p, t);
    CapacityKids(c, s, p, a, t);
  }

  lemma CrashInv(c: Config, s: State, p: Pid, t: State)
    requires Inv(c, s) && p in s.procs && t == AfterCrash(s, p)
    ensures Inv(c, t)
  {
    SoundNow(c, s, p);
    CrashKeeps(c, s, p, t);
    Everyone(c, s, p, t);
    CrashKids(c, s, p, t);
  }

  lemma StartInv(c: Config, s: State, p: Pid, owner: Owner, pc: Pc, t: State)
    requires Inv(c, s) && p !in s.procs && t == Put(s, p, Proc(owner, false, None, None, pc))
    requires pc.Outside? || pc.DrainWait? || pc.CapWait? || pc.ProbeWait?
    ensures Inv(c, t)
  {
    FactsHold(c, s);
    assert MineOk(c, s, p);
    Started(c, s, p, owner, pc, t);
    Everyone(c, s, p, t);
    KidFrame(s, p, t);
  }

  // A child ends, or somebody damages a metadata file.
  lemma OutsideInv(c: Config, s: State, t: State)
    requires Inv(c, s)
    requires t == s.(kids := t.kids, active := t.active) && t.kids <= s.kids
    requires t.active.Keys == s.active.Keys
    requires forall x :: x in t.active ==> t.active[x] == s.active[x] || t.active[x].Corrupt?
    ensures Inv(c, t)
  {
    FactsHold(c, s);
    forall q: Pid ensures MineOk(c, t, q) {
      var p: Pid := q + 1;
      assert MineOk(c, s, q);
      assert Guarantee(s, p, t);
      OthersKeep(c, s, p, t, q);
    }
    KidFrame(s, 0, t);
  }

  lemma FreeInv(c: Config, s: State, p: Pid, a: Action, t: State)
    requires Inv(c, s) && FreeStep(s, p, a, t)
    ensures Inv(c, t)
  {
    match a
    case StartRun(owner) => StartInv(c, s, p, owner, Outside, t);
    case StartDrain(on) => StartInv(c, s, p, 0, DrainWait(on), t);
    case StartCapacity(n) => StartInv(c, s, p, 0, CapWait(n), t);
    case StartProbe(x) => StartInv(c, s, p, 0, ProbeWait(x), t);
    case ChildExits(_) => OutsideInv(c, s, t);
    case Scribble(_) => OutsideInv(c, s, t);
  }

  lemma TurnInv(c: Config, s: State, p: Pid, a: Action, t: State)
    requires Inv(c, s) && p in s.procs
    requires PruneStep(s, p, a, t) || GateStep(s, p, a, t) || ScanStep(s, p, a, t) || GrantStep(s, p, a, t)
    ensures Inv(c, t)
  {
    if PruneStep(s, p, a, t) {
      PruneInv(c, s, p, a, t);
    } else if GateStep(s, p, a, t) {
      GateInv(c, s, p, a, t);
    } else if ScanStep(s, p, a, t) {
      ScanInv(c, s, p, a, t);
    } else {
      GrantInv(c, s, p, a, t);
    }
  }

  lemma QueueInv(c: Config, s: State, p: Pid, a: Action, t: State)
    requires Inv(c, s) && p in s.procs
    requires AdmitStep(c, s, p, a, t) || LeaseStep(s, p, a, t) || WaitStep(s, p, a, t)
    ensures Inv(c, t)
  {
    if AdmitStep(c, s, p, a, t) {
      AdmitInv(c, s, p, a, t);
    } else if LeaseStep(s, p, a, t) {
      LeaseInv(c, s, p, a, t);
    } else {
      WaitInv(c, s, p, a, t);
    }
  }

  lemma PollInv(c: Config, s: State, p: Pid, a: Action, t: State)
    requires Inv(c, s) && p in s.procs && PollStep(c, s, p, a, t)
    ensures Inv(c, t)
  {
    if AdmitStep(c, s, p, a, t) || LeaseStep(s, p, a, t) || WaitStep(s, p, a, t) {
      QueueInv(c, s, p, a, t);
    } else {
      TurnInv(c, s, p, a, t);
    }
  }

  lemma PermitInv(c: Config, s: State, p: Pid, a: Action, t: State)
    requires Inv(c, s) && p in s.procs && PermitStep(s, p, a, t)
    ensures Inv(c, t)
  {
    if JobStep(s, p, a, t) {
      JobInv(c, s, p, a, t);
    } else if DropStep(s, p, a, t) {
      DropInv(c, s, p, a, t);
    } else if DrainStep(s, p, a, t) {
      DrainInv(c, s, p, a, t);
    } else if IdleStep(s, p, a, t) {
      IdleInv(c, s, p, a, t);
    } else if CapacityStep(s, p, a, t) {
      CapacityInv(c, s, p, a, t);
    } else {
      CrashInv(c, s, p, t);
    }
  }

  // Every step of every process keeps the invariant.
  lemma NextInv(c: Config, s: State, p: Pid, a: Action, t: State)
    requires Inv(c, s) && Next(c, s, p, a, t)
    ensures Inv(c, t)
  {
    if FreeStep(s, p, a, t) {
      FreeInv(c, s, p, a, t);
    } else if PollStep(c, s, p, a, t) {
      PollInv(c, s, p, a, t);
    } else {
      PermitInv(c, s, p, a, t);
    }
  }
}
