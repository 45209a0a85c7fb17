// Scheduler::acquire as one loop: poll, wait, poll again, until a permit, a refusal
// or the wait limit. Other processes act between the polls.
module Acquiring {
  import opened Wrappers
  import opened Protocol
  import opened RuntimeFiles

  // What the others have made of the runtime directory by the time of a poll, and
  // how the clock behaves around it, in nanoseconds: spent before the limit is
  // checked, late on top of the requested sleep. draw picks the jitter, and luck is what the
  // file system does.
  datatype Turn = Turn(leases: map<Name, Lease>, active: map<Slot, Meta>, locks: map<Slot, Pid>,
                       drain: bool, capacity: nat, alive: nat -> bool, newName: Name, luck: Luck,
                       spent: nat, draw: nat, late: nat)

  predicate ValidTurn(t: Turn, p: Pid) {
    && 1 <= t.capacity <= 2 && t.newName !in t.leases
    && NoneHeldBy(t.leases, p)
  }

  predicate ValidTurns(turns: seq<Turn>, p: Pid) {
    forall k :: 0 <= k < |turns| ==> ValidTurn(turns[k], p)
  }

  predicate NoneHeldBy(leases: map<Name, Lease>, p: Pid) {
    forall n :: n in leases ==> leases[n].lock != Some(p)
  }

  // The lease files hold no lock of p but the one on its lease, if it has one.
  predicate OnlyLease(leases: map<Name, Lease>, p: Pid, owner: Owner, lease: Option<Name>) {
    && (lease.Some? ==> lease.value in leases && leases[lease.value] == Lease(Some(p), Some(owner)))
    && (forall n :: n in leases && leases[n].lock == Some(p) ==> lease == Some(n))
  }

  datatype Acquired = Permit(slot: Slot) | Refused(why: Denial) | TimedOut | Broken

  const MILLIS: nat := 1_000_000

  function Pow2(k: nat): nat {
    if k == 0 then 1 else 2 * Pow2(k - 1)
  }

  function Min(a: nat, b: nat): nat {
    if a <= b then a else b
  }

  // The pause before poll k + 2, without jitter, in milliseconds.
  function Backoff(k: nat): nat {
    Min(25 * Pow2(k), 500)
  }

  // The least time slept in n pauses, in milliseconds.
  function MinSlept(n: nat): nat {
    if n == 0 then 0 else MinSlept(n - 1) + Backoff(n - 1)
  }

  lemma {:induction false} PowGrows(k: nat)
    requires k >= 5
    ensures Pow2(k) >= 32
  {
    if k == 5 {
      assert Pow2(4) == 16;
    } else {
      PowGrows(k - 1);
    }
  }

  // 25, 50, 100, 200, 400, then 500 each.
  lemma {:induction false} MinSleptValue(n: nat)
    requires n >= 5
    ensures MinSlept(n) == 775 + 500 * (n - 5)
  {
    if n == 5 {
      assert Backoff(0) == 25 && Backoff(1) == 50 && Backoff(2) == 100;
      assert Pow2(3) == 8 && Backoff(3) == 200 && Backoff(4) == 400;
      assert MinSlept(2) == 75 && MinSlept(4) == 375;
    } else {
      MinSleptValue(n - 1);
      PowGrows(n - 1);
    }
  }

  // No more polls than this fit in a wait limit of the given nanoseconds.
  function PollLimit(maxWait: nat): nat {
    7 + maxWait / (500 * MILLIS)
  }

  lemma PollsFit(sleeps: nat, maxWait: nat)
    requires sleeps > 0 ==> MinSlept(sleeps - 1) * MILLIS < maxWait
    ensures sleeps + 1 <= PollLimit(maxWait)
  {
    if sleeps > 5 {
      MinSleptValue(sleeps - 1);
    }
  }

  // The lease files as the others left them, except that nobody takes the lease a live
  // waiter holds (ProtocolRuns.LeaseSurvivesOthers).
  function Held(t: Turn, p: Pid, owner: Owner, lease: Option<Name>): map<Name, Lease> {
    if lease.Some? then t.leases[lease.value := Lease(Some(p), Some(owner))] else t.leases
  }

  lemma HeldAfter(leases: map<Name, Lease>, p: Pid, owner: Owner, lease: Option<Name>, newName: Name, r: Poll,
                  won: Option<Slot>, luck: Luck)
    requires OnlyLease(leases, p, owner, lease) && (lease == None ==> newName !in leases)
    requires luck.locked && won.Some? ==> r.Granted? || r.Failed?
    requires luck.locked && won == None ==>
               !r.Granted? && (lease.Some? ==> r == Waiting(lease.value) || r.Denied?)
    requires !luck.locked ==> r == Failed
    ensures OnlyLease(LeasesAfter(leases, p, owner, lease, newName, r, won, luck), p, owner, LeaseHeld(r, lease, luck))
  {
  }

  lemma HeldOnly(t: Turn, p: Pid, owner: Owner, lease: Option<Name>)
    requires ValidTurn(t, p)
    ensures OnlyLease(Held(t, p, owner, lease), p, owner, lease)
  {
  }

  // One poll on the files as the others left them.
  method PollOnce(rt: Runtime, c: Config, p: Pid, owner: Owner, lease: Option<Name>, t: Turn)
    returns (r: Poll, held: Option<Name>)
    requires ValidTurn(t, p)
    modifies rt
    ensures rt.drain == t.drain && rt.capacity == t.capacity
    ensures r == Outcome(c, Held(t, p, owner, lease), t.active, t.locks, t.drain, t.capacity, p, owner, lease,
                         t.newName, t.alive, t.luck)
    ensures r.Granted? ==> !t.drain && r.slot < t.capacity && r.slot !in t.locks && rt.locks == t.locks[r.slot := p]
                           && r.slot in rt.active && rt.active[r.slot] == Starting(p)
    ensures held == LeaseHeld(r, lease, t.luck) && OnlyLease(rt.leases, p, owner, held)
  {
    rt.leases := Held(t, p, owner, lease);
    rt.active, rt.locks, rt.drain, rt.capacity := t.active, t.locks, t.drain, t.capacity;
    ghost var leases := rt.leases;
    HeldOnly(t, p, owner, lease);
    ChoiceIsFirst(t.active, t.locks, t.alive, t.capacity, p);
    r, held := rt.TakeTurn(c, p, owner, lease, t.newName, t.alive, t.luck);
    HeldAfter(leases, p, owner, lease, t.newName, r,
              SlotWon(leases, t.active, t.locks, t.drain, t.capacity, p, lease, t.alive, t.luck), t.luck);
  }

  // The lease before poll k: none, then the one the first poll created.
  function LeaseBefore(turns: seq<Turn>, k: nat): Option<Name>
    requires turns != []
  {
    if k == 0 then None else Some(turns[0].newName)
  }

  ghost predicate Decision(c: Config, p: Pid, owner: Owner, turns: seq<Turn>, k: nat, r: Poll)
    requires k < |turns| && ValidTurn(turns[k], p)
  {
    var t, lease := turns[k], LeaseBefore(turns, k);
    r == Outcome(c, Held(t, p, owner, lease), t.active, t.locks, t.drain, t.capacity, p, owner, lease, t.newName,
                 t.alive, t.luck)
  }

  // The sleep requested after poll k, in milliseconds.
  function Pause(t: Turn, k: nat): nat {
    Jittered(Backoff(k), t.draw)
  }

  // A backoff with a jitter of at most a quarter of it.
  function Jittered(backoff: nat, draw: nat): nat {
    backoff + draw % (backoff / 4 + 1)
  }

  // The clock and the sleep after a pause, and the next backoff.
  lemma NextPause(turns: seq<Turn>, k: nat)
    requires k < |turns|
    ensures SleptFor(turns, k + 1) == SleptFor(turns, k) + Pause(turns[k], k) * MILLIS
    ensures Clock(turns, k + 1) == Clock(turns, k) + turns[k].spent + Pause(turns[k], k) * MILLIS + turns[k].late
    ensures Backoff(k + 1) == Min(Backoff(k) * 2, 500)
  {
  }

  // Requested sleep and clock before poll k, in nanoseconds.
  function SleptFor(turns: seq<Turn>, k: nat): nat
    requires k <= |turns|
  {
    if k == 0 then 0 else SleptFor(turns, k - 1) + Pause(turns[k - 1], k - 1) * MILLIS
  }

  function Clock(turns: seq<Turn>, k: nat): nat
    requires k <= |turns|
  {
    if k == 0 then 0
    else Clock(turns, k - 1) + turns[k - 1].spent + Pause(turns[k - 1], k - 1) * MILLIS + turns[k - 1].late
  }

  // Every pause is at least the plain backoff and at most 625 milliseconds.
  lemma PauseBounds(t: Turn, k: nat)
    ensures Backoff(k) <= Pause(t, k) <= 625
  {
  }

  // The clock is never behind the sleep, and the sleep never behind the least one.
  lemma {:induction false} ClockBounds(turns: seq<Turn>, k: nat)
    requires k <= |turns|
    ensures MinSlept(k) * MILLIS <= SleptFor(turns, k) <= Clock(turns, k)
  {
    if k > 0 {
      ClockBounds(turns, k - 1);
      PauseBounds(turns[k - 1], k - 1);
    }
  }

  // Poll k only queued, and left time to wait.
  ghost predicate Continues(c: Config, p: Pid, owner: Owner, maxWait: nat, turns: seq<Turn>, k: nat)
    requires k < |turns| && ValidTurn(turns[k], p)
  {
    (exists n :: Decision(c, p, owner, turns, k, Waiting(n))) && Clock(turns, k) + turns[k].spent < maxWait
  }

  ghost predicate AllContinue(c: Config, p: Pid, owner: Owner, maxWait: nat, turns: seq<Turn>, k: nat)
    requires k <= |turns| && ValidTurns(turns, p)
  {
    forall j: nat :: j < k ==> Continues(c, p, owner, maxWait, turns, j)
  }

  lemma ContinuesOn(c: Config, p: Pid, owner: Owner, maxWait: nat, turns: seq<Turn>, k: nat)
    requires k < |turns| && ValidTurns(turns, p)
    requires AllContinue(c, p, owner, maxWait, turns, k) && Continues(c, p, owner, maxWait, turns, k)
    ensures AllContinue(c, p, owner, maxWait, turns, k + 1) && k + 2 <= PollLimit(maxWait)
  {
    PollsBounded(c, p, owner, maxWait, turns, k + 1);
  }

  // A poll that finds its process first in line and a slot free ends the waiting: with a
  // permit, or with a refusal if the pool is draining.
  lemma HeadIsServed(c: Config, p: Pid, owner: Owner, maxWait: nat, turns: seq<Turn>, k: nat)
    requires k < |turns| && ValidTurn(turns[k], p)
    requires var t, lease := turns[k], LeaseBefore(turns, k);
             && t.luck.locked && t.luck.mark == Written && FirstInLine(Held(t, p, owner, lease), lease)
             && SomeFree(t.active, t.locks, t.alive, t.capacity)
    ensures !Continues(c, p, owner, maxWait, turns, k) && !Decides(c, p, owner, turns, k, TimedOut)
    ensures if turns[k].drain then Decides(c, p, owner, turns, k, Refused(Draining))
            else exists x: Slot :: Decides(c, p, owner, turns, k, Permit(x))
  {
    var t, lease := turns[k], LeaseBefore(turns, k);
    var held := Held(t, p, owner, lease);
    var r := Outcome(c, held, t.active, t.locks, t.drain, t.capacity, p, owner, lease, t.newName, t.alive, t.luck);
    GrantedExactly(c, held, t.active, t.locks, t.drain, t.capacity, p, owner, lease, t.newName, t.alive, t.luck);
    if !t.drain {
      assert Decides(c, p, owner, turns, k, Permit(r.slot));
    }
  }

  lemma PauseAfter(turns: seq<Turn>, k: nat, maxWait: nat)
    requires 0 < k <= |turns| && Clock(turns, k - 1) + turns[k - 1].spent < maxWait
    ensures SleptFor(turns, k) < maxWait + 625 * MILLIS && MinSlept(k - 1) * MILLIS < maxWait
  {
    ClockBounds(turns, k - 1);
    PauseBounds(turns[k - 1], k - 1);
  }

  // Polls that all continue are few ...
  lemma PollsBounded(c: Config, p: Pid, owner: Owner, maxWait: nat, turns: seq<Turn>, k: nat)
    requires k <= |turns| && ValidTurns(turns, p) && AllContinue(c, p, owner, maxWait, turns, k)
    ensures k + 1 <= PollLimit(maxWait)
  {
    if k > 0 {
      assert Continues(c, p, owner, maxWait, turns, k - 1);
      PauseAfter(turns, k, maxWait);
    }
    PollsFit(k, maxWait);
  }

  // ... and sleep less than 625 milliseconds beyond the limit in all.
  lemma SleepBounded(c: Config, p: Pid, owner: Owner, maxWait: nat, turns: seq<Turn>, k: nat)
    requires k <= |turns| && ValidTurns(turns, p) && AllContinue(c, p, owner, maxWait, turns, k)
    ensures MinSlept(k) * MILLIS <= SleptFor(turns, k) < maxWait + 625 * MILLIS
  {
    ClockBounds(turns, k);
    if k > 0 {
      assert Continues(c, p, owner, maxWait, turns, k - 1);
      PauseAfter(turns, k, maxWait);
    }
  }

  // The lock and the metadata of a slot below the capacity, in a pool that is not draining.
  ghost predicate HoldsPermit(rt: Runtime, p: Pid, x: Slot)
    reads rt
  {
    !rt.drain && x < rt.capacity && x in rt.locks && rt.locks[x] == p && x in rt.active && rt.active[x] == Starting(p)
  }

  method PollTurn(rt: Runtime, c: Config, p: Pid, owner: Owner, turns: seq<Turn>, k: nat, lease: Option<Name>)
    returns (r: Poll, held: Option<Name>)
    requires k < |turns| && ValidTurn(turns[k], p) && lease == LeaseBefore(turns, k)
    modifies rt
    ensures Decision(c, p, owner, turns, k, r)
    ensures r.Waiting? ==> Some(r.name) == LeaseBefore(turns, k + 1)
    ensures r.Granted? ==> HoldsPermit(rt, p, r.slot) && NoneHeldBy(rt.leases, p)
    ensures OnlyLease(rt.leases, p, owner, held) && (r.Waiting? ==> held == Some(r.name))
  {
    r, held := PollOnce(rt, c, p, owner, lease, turns[k]);
  }

  // WaiterLease::drop
  method DropLease(rt: Runtime, p: Pid, owner: Owner, lease: Option<Name>)
    requires OnlyLease(rt.leases, p, owner, lease)
    modifies rt`leases
    ensures NoneHeldBy(rt.leases, p)
  {
    if lease.Some? {
      rt.leases := rt.leases - {lease.value};
    }
  }

  // thread::sleep with jitter, and the doubled backoff.
  method Sleep(turns: seq<Turn>, k: nat, backoffBefore: nat, sleptBefore: nat, elapsedBefore: nat)
    returns (backoff: nat, slept: nat, elapsed: nat)
    requires k < |turns| && backoffBefore == Backoff(k) && sleptBefore == SleptFor(turns, k)
    requires elapsedBefore == Clock(turns, k) + turns[k].spent
    ensures backoff == Backoff(k + 1) && slept == SleptFor(turns, k + 1) && elapsed == Clock(turns, k + 1)
  {
    NextPause(turns, k);
    var jitter := turns[k].draw % (backoffBefore / 4 + 1);
    slept := sleptBefore + (backoffBefore + jitter) * MILLIS;
    elapsed := elapsedBefore + (backoffBefore + jitter) * MILLIS + turns[k].late;
    backoff := Min(backoffBefore * 2, 500);
  }

  // The result poll k leads to when it is the last.
  ghost predicate Decides(c: Config, p: Pid, owner: Owner, turns: seq<Turn>, k: nat, r: Acquired)
    requires k < |turns| && ValidTurn(turns[k], p)
  {
    match r
    case Permit(x) => Decision(c, p, owner, turns, k, Granted(x))
    case Refused(why) => Decision(c, p, owner, turns, k, Denied(why))
    case TimedOut => exists n :: Decision(c, p, owner, turns, k, Waiting(n))
    case Broken => Decision(c, p, owner, turns, k, Failed)
  }

  // One round of the loop up to the sleep: a result, or the lease to wait with.
  method Round(rt: Runtime, c: Config, p: Pid, owner: Owner, maxWait: nat, turns: seq<Turn>, k: nat,
               leaseBefore: Option<Name>, elapsedBefore: nat)
    returns (done: Option<Acquired>, lease: Option<Name>, elapsed: nat)
    requires k < |turns| && ValidTurn(turns[k], p)
    requires leaseBefore == LeaseBefore(turns, k) && elapsedBefore == Clock(turns, k)
    modifies rt
    ensures done == None ==> Continues(c, p, owner, maxWait, turns, k) && lease == LeaseBefore(turns, k + 1)
                             && elapsed == Clock(turns, k) + turns[k].spent
    ensures done.Some? ==>
              && Decides(c, p, owner, turns, k, done.value) && NoneHeldBy(rt.leases, p)
              && (done.value.Permit? ==> HoldsPermit(rt, p, done.value.slot))
              && (done.value.TimedOut? ==> elapsed >= maxWait)
              && elapsed == Clock(turns, k) + if done.value.TimedOut? then turns[k].spent else 0
  {
    elapsed := elapsedBefore;
    var poll;
    poll, lease := PollTurn(rt, c, p, owner, turns, k, leaseBefore);
    match poll {
      case Granted(x) =>
        return Some(Permit(x)), None, elapsed;
      case Denied(why) =>
        DropLease(rt, p, owner, lease);
        return Some(Refused(why)), None, elapsed;
      case Failed =>
        DropLease(rt, p, owner, lease);
        return Some(Broken), None, elapsed;
      case Waiting(_) =>
    }
    elapsed := elapsed + turns[k].spent;
    if elapsed >= maxWait {
      DropLease(rt, p, owner, lease);
      return Some(TimedOut), None, elapsed;
    }
    done := None;
  }

  // maxWait, slept (the requested pauses) and elapsed (the clock) are in nanoseconds. The last
  // poll decides, or finds the time used up; all before it continue, so SleepBounded limits
  // the sleep.
  method Acquire(rt: Runtime, c: Config, p: Pid, owner: Owner, maxWait: nat, turns: seq<Turn>)
    returns (r: Acquired, polls: nat, slept: nat, elapsed: nat)
    requires ValidTurns(turns, p) && |turns| >= PollLimit(maxWait)
    modifies rt
    ensures 1 <= polls <= PollLimit(maxWait)
    ensures AllContinue(c, p, owner, maxWait, turns, polls - 1)
    ensures Decides(c, p, owner, turns, polls - 1, r)
    ensures r.TimedOut? ==> elapsed >= maxWait
    ensures slept == SleptFor(turns, polls - 1)
    ensures elapsed == Clock(turns, polls - 1) + if r.TimedOut? then turns[polls - 1].spent else 0
    ensures r.Permit? ==> HoldsPermit(rt, p, r.slot)
    ensures NoneHeldBy(rt.leases, p)
  {
    var backoff: nat := 25;
    var lease: Option<Name> := None;
    polls, slept, elapsed := 0, 0, 0;
    while true
      invariant polls + 1 <= PollLimit(maxWait) && backoff == Backoff(polls) && lease == LeaseBefore(turns, polls)
      invariant slept == SleptFor(turns, polls) && elapsed == Clock(turns, polls)
      invariant AllContinue(c, p, owner, maxWait, turns, polls)
      decreases |turns| - polls
    {
      var done;
      done, lease, elapsed := Round(rt, c, p, owner, maxWait, turns, polls, lease, elapsed);
      if done.Some? {
        return done.value, polls + 1, slept, elapsed;
      }
      ContinuesOn(c, p, owner, maxWait, turns, polls);
      backoff, slept, elapsed := Sleep(turns, polls, backoff, slept, elapsed);
      polls := polls + 1;
    }
  }
}
