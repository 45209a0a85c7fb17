// Where the children that files account for run, and what any scan makes of their slots.
module Occupancy {
  import opened Wrappers
  import opened Protocol
  import opened ProtocolInvariant
  import opened ProtocolSafety
  import opened ProtocolRuns
  import opened RuntimeFiles

  // Every process and child that exists answers a probe; one that is gone may do so too.
  ghost predicate Honest(s: State, alive: nat -> bool) {
    (forall q :: q in s.procs ==> alive(q)) && (forall k :: k in s.kids ==> alive(k))
  }

  // In every state of every run the recorded children sit on distinct slots below the
  // capacity, and whoever probes such a slot finds it quarantined, its supervisor dead or
  // alive, its lock held or not.
  lemma RecordedQuarantined(c: Config, ss: seq<State>, es: seq<Event>, i: nat, alive: nat -> bool)
    requires Run(c, ss, es) && i < |ss| && Honest(ss[i], alive)
    ensures forall k :: Recorded(ss[i], k) ==>
              && k in ss[i].tenant && ss[i].tenant[k] < ss[i].capacity
              && Quarantined(ss[i].active, alive, ss[i].tenant[k])
    ensures forall k, l :: Recorded(ss[i], k) && Recorded(ss[i], l) && k != l ==> ss[i].tenant[k] != ss[i].tenant[l]
  {
    RunInv(c, ss, es, i);
    forall k | Recorded(ss[i], k)
      ensures k in ss[i].tenant && ss[i].tenant[k] < ss[i].capacity && Quarantined(ss[i].active, alive, ss[i].tenant[k])
      ensures forall l :: Recorded(ss[i], l) && l != k ==> l in ss[i].tenant && ss[i].tenant[l] != ss[i].tenant[k]
    {
      RecordedSlots(c, ss[i], k);
    }
  }

  // So a scan of the files as they are never chooses a recorded child's slot.
  lemma ChoiceAvoidsChildren(c: Config, ss: seq<State>, es: seq<Event>, i: nat, alive: nat -> bool, p: Pid, k: Child)
    requires Run(c, ss, es) && i < |ss| && Honest(ss[i], alive) && ss[i].capacity > 0 && Recorded(ss[i], k)
    ensures k in ss[i].tenant
    ensures Choice(ss[i].active, ss[i].locks, alive, ss[i].capacity, p) != Some(ss[i].tenant[k])
  {
    RecordedQuarantined(c, ss, es, i, alive);
    ChoiceIsFirst(ss[i].active, ss[i].locks, alive, ss[i].capacity, p);
  }
}
