// The supervisor loop: which signals a workload gets, and when.
module Supervision {
  import opened Wrappers

  datatype Signal = SIGINT | SIGTERM | SIGQUIT | SIGWINCH | SIGKILL

  // What the signal iterator is registered for.
  type Caught = s: Signal | s != SIGKILL witness SIGTERM

  datatype Wait = Running | Exited(status: int) | WaitFailed

  // What one turn of the loop observes; each reading of the clock is its own number.
  datatype Tick = Tick(wait: Wait, arrivals: seq<(Caught, nat)>, cancel: Option<nat>,
                       runNow: nat, timeoutAt: nat, graceNow: nat)

  datatype Options = Options(maxRun: nat, grace: nat)

  // A signal sent to the child group, with the clock reading and the turn it belongs to.
  datatype Sent = Sent(signal: Signal, at: nat, turn: nat)

  datatype State = State(terminating: Option<(nat, Signal)>, sent: seq<Sent>)

  // What happens before the loop: the signal handlers, the control socket (which may exist
  // although binding it reports an error), the spawn, and the running mark.
  datatype Binding = Bound | NotBound | HalfBound

  datatype Setup = Setup(handlers: bool, binding: Binding, spawned: bool, marked: bool)

  predicate Starts(setup: Setup) {
    setup.handlers && setup.binding == Bound && setup.spawned
  }

  // NotStarted: an error before there was a child.
  datatype Outcome = Finished(status: int, forwarded: Option<Signal>) | Failed | NotStarted | StillRunning

  const Idle := State(None, [])

  // Instant::elapsed never goes below zero.
  function Elapsed(from: nat, now: nat): nat {
    if now < from then 0 else now - from
  }

  // ---- one turn ------------------------------------------------------------------------

  function Send(s: State, signal: Signal, at: nat, turn: nat): State {
    s.(sent := s.sent + [Sent(signal, at, turn)])
  }

  function Terminate(s: State, signal: Signal, at: nat, turn: nat): State {
    Send(s, signal, at, turn).(terminating := Some((at, signal)))
  }

  function Arrive(s: State, arrival: (Caught, nat), turn: nat): State {
    if arrival.0 == SIGWINCH then Send(s, SIGWINCH, arrival.1, turn)
    else if s.terminating == None then Terminate(s, arrival.0, arrival.1, turn)
    else s
  }

  function ArriveAll(s: State, arrivals: seq<(Caught, nat)>, turn: nat): State {
    if arrivals == [] then s
    else Arrive(ArriveAll(s, arrivals[..|arrivals| - 1], turn), arrivals[|arrivals| - 1], turn)
  }

  function Cancelled(s: State, t: Tick, turn: nat): State {
    if s.terminating == None && t.cancel.Some? then Terminate(s, SIGTERM, t.cancel.value, turn) else s
  }

  function TimedOut(o: Options, s: State, t: Tick, started: nat, turn: nat): State {
    if s.terminating == None && Elapsed(started, t.runNow) >= o.maxRun then Terminate(s, SIGTERM, t.timeoutAt, turn)
    else s
  }

  function Killed(o: Options, s: State, t: Tick, turn: nat): State {
    if s.terminating.Some? && Elapsed(s.terminating.value.0, t.graceNow) >= o.grace
    then Send(s, SIGKILL, t.graceNow, turn)
    else s
  }

  function Turn(o: Options, s: State, t: Tick, started: nat, turn: nat): State {
    Killed(o, TimedOut(o, Cancelled(ArriveAll(s, t.arrivals, turn), t, turn), t, started, turn), t, turn)
  }

  // After n whole turns.
  function After(o: Options, ticks: seq<Tick>, started: nat, n: nat): State
    requires n <= |ticks|
  {
    if n == 0 then Idle else Turn(o, After(o, ticks, started, n - 1), ticks[n - 1], started, n - 1)
  }

  // ---- the loop --------------------------------------------------------------------------

  // The first turn in which the child is not running any more.
  function Ending(ticks: seq<Tick>): (n: nat)
    ensures n <= |ticks| && (n < |ticks| ==> ticks[n].wait != Running)
    ensures forall i :: 0 <= i < n ==> ticks[i].wait == Running
  {
    if ticks == [] || ticks[0].wait != Running then 0
    else
      var n := Ending(ticks[1..]);
      assert forall i :: 0 < i < 1 + n ==> ticks[i] == ticks[1..][i - 1];
      1 + n
  }

  datatype ChildState = Unborn | Living | Reaped

  // The child and its group, and the control socket file, as the kernel has them. A signal
  // goes to a group whose leader has not been reaped, so never to a reused number.
  class Workload {
    var child: ChildState
    var control: bool
    var sent: seq<Sent>
    var forced: bool

    constructor ()
      ensures child == Unborn && !control && sent == [] && !forced
    {
      child, control, sent, forced := Unborn, false, [], false;
    }

    method Bind(binding: Binding) returns (ok: bool)
      requires !control
      modifies this`control
      ensures ok <==> binding == Bound
      ensures control == ok
    {
      if binding == NotBound {
        return false;
      }
      control := true;
      if binding == HalfBound {
        Unbind();
        return false;
      }
      return true;
    }

    // ControlEndpoint::drop
    method Unbind()
      modifies this`control
      ensures !control
    {
      control := false;
    }

    method Spawn(ok: bool)
      requires child == Unborn
      modifies this`child
      ensures child == if ok then Living else Unborn
    {
      if ok {
        child := Living;
      }
    }

    // try_wait reaps a child that has ended.
    method TryWait(wait: Wait)
      requires child == Living
      modifies this`child
      ensures child == if wait.Exited? then Reaped else Living
    {
      if wait.Exited? {
        child := Reaped;
      }
    }

    // killpg
    method Signal(signal: Signal, at: nat, turn: nat)
      requires child == Living
      modifies this`sent
      ensures sent == old(sent) + [Sent(signal, at, turn)]
    {
      sent := sent + [Sent(signal, at, turn)];
    }

    // ChildCleanup::drop
    method Cleanup(armed: bool)
      requires armed <==> child == Living
      modifies this`child, this`forced
      ensures child == if armed then Reaped else old(child)
      ensures forced == (armed || old(forced))
    {
      if armed {
        forced := true;
        child := Reaped;
      }
    }
  }

  // Everything up to the child; on an error the control socket is gone again.
  method Begin(w: Workload, setup: Setup) returns (ok: bool)
    requires w.child == Unborn && !w.control
    modifies w`child, w`control
    ensures ok <==> Starts(setup)
    ensures w.control == ok && w.child == if ok then Living else Unborn
  {
    if !setup.handlers {
      return false;
    }
    ok := w.Bind(setup.binding);
    if !ok {
      return false;
    }
    w.Spawn(setup.spawned);
    if !setup.spawned {
      w.Unbind();
      return false;
    }
    return true;
  }

  // forced: the guard killed and reaped the child.
  method Supervise(o: Options, w: Workload, setup: Setup, started: nat, ticks: seq<Tick>) returns (outcome: Outcome)
    requires w.child == Unborn && !w.control && w.sent == [] && !w.forced
    modifies w
    ensures outcome == NotStarted <==> !Starts(setup)
    ensures w.child == (match outcome case NotStarted => Unborn case StillRunning => Living case _ => Reaped)
    ensures w.control <==> outcome == StillRunning
    ensures !Starts(setup) ==> w.sent == [] && !w.forced
    ensures Starts(setup) && !setup.marked ==> outcome == Failed && w.sent == [] && w.forced
    ensures Starts(setup) && setup.marked ==>
              var n := Ending(ticks);
              var s := After(o, ticks, started, n);
              && w.sent == s.sent
              && (n == |ticks| ==> outcome == StillRunning && !w.forced)
              && (n < |ticks| && ticks[n].wait.Exited? ==>
                    outcome == Finished(ticks[n].wait.status, Forwarded(s)) && !w.forced)
              && (n < |ticks| && ticks[n].wait.WaitFailed? ==> outcome == Failed && w.forced)
  {
    var ok := Begin(w, setup);
    if !ok {
      return NotStarted;
    }
    if !setup.marked {
      w.Cleanup(true);
      w.Unbind();
      return Failed;
    }
    outcome := Watch(o, w, started, ticks);
    if outcome != StillRunning {
      w.Unbind();
    }
  }

  // The loop, and the guard at its end.
  method Watch(o: Options, w: Workload, started: nat, ticks: seq<Tick>) returns (outcome: Outcome)
    requires w.child == Living && w.sent == [] && !w.forced
    modifies w`child, w`sent, w`forced
    ensures outcome != NotStarted && w.child == if outcome == StillRunning then Living else Reaped
    ensures var n := Ending(ticks);
            var s := After(o, ticks, started, n);
            && w.sent == s.sent
            && (n == |ticks| ==> outcome == StillRunning && !w.forced)
            && (n < |ticks| && ticks[n].wait.Exited? ==>
                  outcome == Finished(ticks[n].wait.status, Forwarded(s)) && !w.forced)
            && (n < |ticks| && ticks[n].wait.WaitFailed? ==> outcome == Failed && w.forced)
  {
    var terminating: Option<(nat, Signal)> := None;
    for turn := 0 to |ticks|
      invariant w.child == Living && !w.forced && Ending(ticks) >= turn
      invariant State(terminating, w.sent) == After(o, ticks, started, turn)
    {
      var tick := ticks[turn];
      w.TryWait(tick.wait);
      match tick.wait {
        case Exited(status) =>
          assert Ending(ticks) == turn;
          w.Cleanup(false);
          var forwarded := if terminating.Some? then Some(terminating.value.1) else None;
          return Finished(status, forwarded);
        case WaitFailed =>
          assert Ending(ticks) == turn;
          w.Cleanup(true);
          return Failed;
        case Running =>
      }
      terminating := Pending(w, terminating, tick.arrivals, turn);
      terminating := EndIfAsked(o, w, terminating, tick, started, turn);
      if terminating.Some? && Elapsed(terminating.value.0, tick.graceNow) >= o.grace {
        w.Signal(SIGKILL, tick.graceNow, turn);
      }
    }
    return StillRunning;
  }

  // A cancellation, then the time limit.
  method EndIfAsked(o: Options, w: Workload, before: Option<(nat, Signal)>, tick: Tick, started: nat, turn: nat)
      returns (terminating: Option<(nat, Signal)>)
    requires w.child == Living
    modifies w`sent
    ensures State(terminating, w.sent)
         == TimedOut(o, Cancelled(State(before, old(w.sent)), tick, turn), tick, started, turn)
  {
    terminating := before;
    if terminating == None && tick.cancel.Some? {
      w.Signal(SIGTERM, tick.cancel.value, turn);
      terminating := Some((tick.cancel.value, SIGTERM));
    }
    if terminating == None && Elapsed(started, tick.runNow) >= o.maxRun {
      w.Signal(SIGTERM, tick.timeoutAt, turn);
      terminating := Some((tick.timeoutAt, SIGTERM));
    }
  }

  // The inner loop over pending signals.
  method Pending(w: Workload, before: Option<(nat, Signal)>, arrivals: seq<(Caught, nat)>, turn: nat)
      returns (terminating: Option<(nat, Signal)>)
    requires w.child == Living
    modifies w`sent
    ensures State(terminating, w.sent) == ArriveAll(State(before, old(w.sent)), arrivals, turn)
  {
    terminating := before;
    for i := 0 to |arrivals|
      invariant State(terminating, w.sent) == ArriveAll(State(before, old(w.sent)), arrivals[..i], turn)
    {
      assert arrivals[..i + 1][..i] == arrivals[..i];
      var signal, now := arrivals[i].0, arrivals[i].1;
      if signal == SIGWINCH {
        w.Signal(SIGWINCH, now, turn);
      } else if terminating == None {
        w.Signal(signal, now, turn);
        terminating := Some((now, signal));
      }
    }
    assert arrivals[..|arrivals|] == arrivals;
  }

  function Forwarded(s: State): Option<Signal> {
    match s.terminating case None => None case Some(t) => Some(t.1)
  }

  // ---- which signals are sent ----------------------------------------------------------------

  predicate IsTermination(s: Signal) {
    s == SIGINT || s == SIGTERM || s == SIGQUIT
  }

  // sent[f] is the one termination signal: before it only window changes, after it only
  // window changes and kills that waited for the grace period.
  ghost predicate OneTermination(sent: seq<Sent>, f: int, since: nat, signal: Signal, grace: nat) {
    && 0 <= f < |sent| && sent[f].signal == signal && sent[f].at == since && IsTermination(signal)
    && (forall i :: 0 <= i < f ==> sent[i].signal == SIGWINCH)
    && (forall i :: f < i < |sent| ==>
          sent[i].signal == SIGWINCH || (sent[i].signal == SIGKILL && Elapsed(since, sent[i].at) >= grace))
  }

  ghost predicate WellBehaved(s: State, grace: nat) {
    match s.terminating
    case None => forall x :: x in s.sent ==> x.signal == SIGWINCH
    case Some(t) => exists f :: OneTermination(s.sent, f, t.0, t.1, grace)
  }

  lemma SendBehaves(s: State, signal: Signal, at: nat, turn: nat, grace: nat)
    requires WellBehaved(s, grace)
    requires signal == SIGWINCH
          || (signal == SIGKILL && s.terminating.Some? && Elapsed(s.terminating.value.0, at) >= grace)
    ensures WellBehaved(Send(s, signal, at, turn), grace)
  {
    if s.terminating.Some? {
      var f :| OneTermination(s.sent, f, s.terminating.value.0, s.terminating.value.1, grace);
      assert OneTermination(Send(s, signal, at, turn).sent, f, s.terminating.value.0, s.terminating.value.1, grace);
    }
  }

  lemma TerminateBehaves(s: State, signal: Signal, at: nat, turn: nat, grace: nat)
    requires WellBehaved(s, grace) && s.terminating == None && IsTermination(signal)
    ensures WellBehaved(Terminate(s, signal, at, turn), grace)
  {
    forall i | 0 <= i < |s.sent| ensures s.sent[i].signal == SIGWINCH {
      assert s.sent[i] in s.sent;
    }
    assert OneTermination(Terminate(s, signal, at, turn).sent, |s.sent|, at, signal, grace);
  }

  lemma {:induction false} ArrivalsBehave(s: State, arrivals: seq<(Caught, nat)>, turn: nat, grace: nat)
    requires WellBehaved(s, grace)
    ensures WellBehaved(ArriveAll(s, arrivals, turn), grace)
  {
    if arrivals != [] {
      var n := |arrivals| - 1;
      ArrivalsBehave(s, arrivals[..n], turn, grace);
      var before := ArriveAll(s, arrivals[..n], turn);
      if arrivals[n].0 == SIGWINCH {
        SendBehaves(before, SIGWINCH, arrivals[n].1, turn, grace);
      } else if before.terminating == None {
        TerminateBehaves(before, arrivals[n].0, arrivals[n].1, turn, grace);
      }
    }
  }

  lemma TurnBehaves(o: Options, s: State, t: Tick, started: nat, turn: nat)
    requires WellBehaved(s, o.grace)
    ensures WellBehaved(Turn(o, s, t, started, turn), o.grace)
  {
    ArrivalsBehave(s, t.arrivals, turn, o.grace);
    var a := ArriveAll(s, t.arrivals, turn);
    if a.terminating == None && t.cancel.Some? {
      TerminateBehaves(a, SIGTERM, t.cancel.value, turn, o.grace);
    }
    var b := Cancelled(a, t, turn);
    if b.terminating == None && Elapsed(started, t.runNow) >= o.maxRun {
      TerminateBehaves(b, SIGTERM, t.timeoutAt, turn, o.grace);
    }
    var c := TimedOut(o, b, t, started, turn);
    if c.terminating.Some? && Elapsed(c.terminating.value.0, t.graceNow) >= o.grace {
      SendBehaves(c, SIGKILL, t.graceNow, turn, o.grace);
    }
  }

  // For every input: at most one termination signal, nothing but window changes before
  // it, no kill before the grace period is over, and the signal reported is that one.
  lemma {:induction false} SignalsBehave(o: Options, ticks: seq<Tick>, started: nat, n: nat)
    requires n <= |ticks|
    ensures WellBehaved(After(o, ticks, started, n), o.grace)
    decreases n
  {
    if n > 0 {
      SignalsBehave(o, ticks, started, n - 1);
      TurnBehaves(o, After(o, ticks, started, n - 1), ticks[n - 1], started, n - 1);
    }
  }

  // ---- when they are sent ---------------------------------------------------------------------

  lemma {:induction false} ArrivalsExtend(s: State, arrivals: seq<(Caught, nat)>, turn: nat)
    ensures s.sent <= ArriveAll(s, arrivals, turn).sent
    ensures s.terminating.Some? ==> ArriveAll(s, arrivals, turn).terminating == s.terminating
  {
    if arrivals != [] {
      ArrivalsExtend(s, arrivals[..|arrivals| - 1], turn);
    }
  }

  // Signals are never taken back and a termination, once begun, stands.
  lemma TurnExtends(o: Options, s: State, t: Tick, started: nat, turn: nat)
    ensures s.sent <= Turn(o, s, t, started, turn).sent
    ensures s.terminating.Some? ==> Turn(o, s, t, started, turn).terminating == s.terminating
  {
    ArrivalsExtend(s, t.arrivals, turn);
  }

  lemma {:induction false} AfterExtends(o: Options, ticks: seq<Tick>, started: nat, m: nat, n: nat)
    requires m <= n <= |ticks|
    ensures After(o, ticks, started, m).sent <= After(o, ticks, started, n).sent
    ensures After(o, ticks, started, m).terminating.Some? ==>
              After(o, ticks, started, n).terminating == After(o, ticks, started, m).terminating
    decreases n
  {
    if m < n {
      AfterExtends(o, ticks, started, m, n - 1);
      TurnExtends(o, After(o, ticks, started, n - 1), ticks[n - 1], started, n - 1);
    }
  }

  predicate Requested(a: (Caught, nat)) {
    a.0 != SIGWINCH
  }

  lemma {:induction false} ArrivalsTerminate(s: State, arrivals: seq<(Caught, nat)>, turn: nat)
    ensures ArriveAll(s, arrivals, turn).terminating.Some?
       <==> s.terminating.Some? || exists i :: 0 <= i < |arrivals| && Requested(arrivals[i])
  {
    if arrivals != [] {
      var n := |arrivals| - 1;
      ArrivalsTerminate(s, arrivals[..n], turn);
      if Requested(arrivals[n]) {
      } else if i :| 0 <= i < |arrivals| && Requested(arrivals[i]) {
        assert arrivals[..n][i] == arrivals[i];
      }
    }
  }

  // Something in the turn asks for the workload to end.
  ghost predicate AsksToEnd(o: Options, t: Tick, started: nat) {
    || (exists i :: 0 <= i < |t.arrivals| && Requested(t.arrivals[i]))
    || t.cancel.Some?
    || Elapsed(started, t.runNow) >= o.maxRun
  }

  // Termination has begun exactly when some turn so far asked for it: a signal, a
  // cancellation, or the time limit, in the very turn that sees it.
  lemma {:induction false} TerminatesWhenAsked(o: Options, ticks: seq<Tick>, started: nat, n: nat)
    requires n <= |ticks|
    ensures After(o, ticks, started, n).terminating.Some?
       <==> exists k :: 0 <= k < n && AsksToEnd(o, ticks[k], started)
    decreases n
  {
    if n > 0 {
      var s := After(o, ticks, started, n - 1);
      TerminatesWhenAsked(o, ticks, started, n - 1);
      ArrivalsTerminate(s, ticks[n - 1].arrivals, n - 1);
      assert After(o, ticks, started, n).terminating.Some?
        <==> s.terminating.Some? || AsksToEnd(o, ticks[n - 1], started);
    }
  }

  // The first arrival that asks to end.
  ghost predicate FirstAsking(arrivals: seq<(Caught, nat)>, i: int) {
    0 <= i < |arrivals| && Requested(arrivals[i]) && forall j :: 0 <= j < i ==> !Requested(arrivals[j])
  }

  lemma {:induction false} ArrivalsFirst(s: State, arrivals: seq<(Caught, nat)>, turn: nat, i: nat)
    requires s.terminating == None && FirstAsking(arrivals, i)
    ensures ArriveAll(s, arrivals, turn).terminating == Some((arrivals[i].1, arrivals[i].0))
    ensures Sent(arrivals[i].0, arrivals[i].1, turn) in ArriveAll(s, arrivals, turn).sent
  {
    var n := |arrivals| - 1;
    if i < n {
      assert arrivals[..n][i] == arrivals[i];
      ArrivalsFirst(s, arrivals[..n], turn, i);
    } else {
      ArrivalsTerminate(s, arrivals[..n], turn);
      assert forall j :: 0 <= j < n ==> arrivals[..n][j] == arrivals[j];
    }
  }

  lemma NoneAsks(s: State, arrivals: seq<(Caught, nat)>, turn: nat)
    requires s.terminating == None && forall i :: 0 <= i < |arrivals| ==> !Requested(arrivals[i])
    ensures ArriveAll(s, arrivals, turn).terminating == None
  {
    ArrivalsTerminate(s, arrivals, turn);
  }

  // What ends the workload in a turn that asks for it: the first signal but a window
  // change, else SIGTERM for a cancellation, else SIGTERM for the time limit.
  ghost predicate EndsWith(t: Tick, signal: Signal, at: nat) {
    if exists i :: FirstAsking(t.arrivals, i)
    then exists i :: FirstAsking(t.arrivals, i) && signal == t.arrivals[i].0 && at == t.arrivals[i].1
    else signal == SIGTERM && at == if t.cancel.Some? then t.cancel.value else t.timeoutAt
  }

  lemma {:induction false} SomeFirst(arrivals: seq<(Caught, nat)>, i: nat) returns (k: nat)
    requires i < |arrivals| && Requested(arrivals[i])
    ensures FirstAsking(arrivals, k)
  {
    if j :| 0 <= j < i && Requested(arrivals[j]) {
      k := SomeFirst(arrivals, j);
    } else {
      k := i;
    }
  }

  lemma KilledKeeps(o: Options, s: State, t: Tick, turn: nat)
    ensures Killed(o, s, t, turn).terminating == s.terminating && s.sent <= Killed(o, s, t, turn).sent
  {
  }

  lemma TurnEnds(o: Options, s: State, t: Tick, started: nat, turn: nat) returns (signal: Signal, at: nat)
    requires s.terminating == None && AsksToEnd(o, t, started)
    ensures EndsWith(t, signal, at)
    ensures Turn(o, s, t, started, turn).terminating == Some((at, signal))
    ensures Sent(signal, at, turn) in Turn(o, s, t, started, turn).sent
  {
    var a := ArriveAll(s, t.arrivals, turn);
    KilledKeeps(o, TimedOut(o, Cancelled(a, t, turn), t, started, turn), t, turn);
    if i :| 0 <= i < |t.arrivals| && Requested(t.arrivals[i]) {
      var k := SomeFirst(t.arrivals, i);
      ArrivalsFirst(s, t.arrivals, turn, k);
      signal, at := t.arrivals[k].0, t.arrivals[k].1;
    } else {
      NoneAsks(s, t.arrivals, turn);
      signal, at := SIGTERM, if t.cancel.Some? then t.cancel.value else t.timeoutAt;
      var ended := Terminate(a, signal, at, turn);
      assert ended.sent[|a.sent|] == Sent(signal, at, turn);
    }
  }

  // The termination signal of a run: with k the first turn that asks to end, it is what
  // that turn asks with, sent in that turn and reported at the end.
  lemma TerminatedBy(o: Options, ticks: seq<Tick>, started: nat, k: nat, n: nat) returns (signal: Signal, at: nat)
    requires k < n <= |ticks| && AsksToEnd(o, ticks[k], started)
    requires forall j :: 0 <= j < k ==> !AsksToEnd(o, ticks[j], started)
    ensures EndsWith(ticks[k], signal, at)
    ensures var s := After(o, ticks, started, n);
            s.terminating == Some((at, signal)) && Forwarded(s) == Some(signal) && Sent(signal, at, k) in s.sent
  {
    TerminatesWhenAsked(o, ticks, started, k);
    signal, at := TurnEnds(o, After(o, ticks, started, k), ticks[k], started, k);
    AfterExtends(o, ticks, started, k + 1, n);
    var before, after := After(o, ticks, started, k + 1), After(o, ticks, started, n);
    var x :| 0 <= x < |before.sent| && before.sent[x] == Sent(signal, at, k);
    assert after.sent[x] == Sent(signal, at, k);
  }

  // A run nobody asks to end is not ended, and reports no signal.
  lemma NotTerminated(o: Options, ticks: seq<Tick>, started: nat, n: nat)
    requires n <= |ticks| && forall j :: 0 <= j < n ==> !AsksToEnd(o, ticks[j], started)
    ensures var s := After(o, ticks, started, n);
            Forwarded(s) == None && forall x :: x in s.sent ==> x.signal == SIGWINCH
  {
    TerminatesWhenAsked(o, ticks, started, n);
    SignalsBehave(o, ticks, started, n);
  }

  // In every whole turn that finds the grace period over, a kill is sent.
  lemma KillsAfterGrace(o: Options, ticks: seq<Tick>, started: nat, k: nat, n: nat)
    requires k < n <= |ticks|
    ensures var s := After(o, ticks, started, k + 1);
            s.terminating.Some? && Elapsed(s.terminating.value.0, ticks[k].graceNow) >= o.grace ==>
              Sent(SIGKILL, ticks[k].graceNow, k) in After(o, ticks, started, n).sent
  {
    var s := After(o, ticks, started, k + 1);
    AfterExtends(o, ticks, started, k + 1, n);
    if s.terminating.Some? && Elapsed(s.terminating.value.0, ticks[k].graceNow) >= o.grace {
      var last := s.sent[|s.sent| - 1];
      assert last == Sent(SIGKILL, ticks[k].graceNow, k);
      assert After(o, ticks, started, n).sent[|s.sent| - 1] == last;
    }
  }

  function WindowChanges(arrivals: seq<(Caught, nat)>): nat {
    if arrivals == [] then 0
    else WindowChanges(arrivals[..|arrivals| - 1]) + if arrivals[|arrivals| - 1].0 == SIGWINCH then 1 else 0
  }

  function AllWindowChanges(ticks: seq<Tick>, n: nat): nat
    requires n <= |ticks|
  {
    if n == 0 then 0 else AllWindowChanges(ticks, n - 1) + WindowChanges(ticks[n - 1].arrivals)
  }

  function WindowSent(sent: seq<Sent>): nat {
    if sent == [] then 0
    else WindowSent(sent[..|sent| - 1]) + if sent[|sent| - 1].signal == SIGWINCH then 1 else 0
  }

  lemma SendCounts(s: State, signal: Signal, at: nat, turn: nat)
    ensures WindowSent(Send(s, signal, at, turn).sent) == WindowSent(s.sent) + if signal == SIGWINCH then 1 else 0
  {
    assert Send(s, signal, at, turn).sent[..|s.sent|] == s.sent;
  }

  lemma {:induction false} ArrivalsCount(s: State, arrivals: seq<(Caught, nat)>, turn: nat)
    ensures WindowSent(ArriveAll(s, arrivals, turn).sent) == WindowSent(s.sent) + WindowChanges(arrivals)
  {
    if arrivals != [] {
      var n := |arrivals| - 1;
      ArrivalsCount(s, arrivals[..n], turn);
      SendCounts(ArriveAll(s, arrivals[..n], turn), arrivals[n].0, arrivals[n].1, turn);
    }
  }

  lemma CancelledCounts(s: State, t: Tick, turn: nat)
    ensures WindowSent(Cancelled(s, t, turn).sent) == WindowSent(s.sent)
  {
    if t.cancel.Some? {
      SendCounts(s, SIGTERM, t.cancel.value, turn);
    }
  }

  lemma TimedOutCounts(o: Options, s: State, t: Tick, started: nat, turn: nat)
    ensures WindowSent(TimedOut(o, s, t, started, turn).sent) == WindowSent(s.sent)
  {
    SendCounts(s, SIGTERM, t.timeoutAt, turn);
  }

  lemma KilledCounts(o: Options, s: State, t: Tick, turn: nat)
    ensures WindowSent(Killed(o, s, t, turn).sent) == WindowSent(s.sent)
  {
    SendCounts(s, SIGKILL, t.graceNow, turn);
  }

  lemma TurnCounts(o: Options, s: State, t: Tick, started: nat, turn: nat)
    ensures WindowSent(Turn(o, s, t, started, turn).sent) == WindowSent(s.sent) + WindowChanges(t.arrivals)
  {
    var a := ArriveAll(s, t.arrivals, turn);
    var b := Cancelled(a, t, turn);
    ArrivalsCount(s, t.arrivals, turn);
    CancelledCounts(a, t, turn);
    TimedOutCounts(o, b, t, started, turn);
    KilledCounts(o, TimedOut(o, b, t, started, turn), t, turn);
  }

  // Every window change is passed on, terminating or not.
  lemma {:induction false} WindowChangesForwarded(o: Options, ticks: seq<Tick>, started: nat, n: nat)
    requires n <= |ticks|
    ensures WindowSent(After(o, ticks, started, n).sent) == AllWindowChanges(ticks, n)
    decreases n
  {
    if n > 0 {
      WindowChangesForwarded(o, ticks, started, n - 1);
      TurnCounts(o, After(o, ticks, started, n - 1), ticks[n - 1], started, n - 1);
    }
  }
}
