/** The sweeps of the queue service are runs of the transition system. */
module SyncSweeps {
  import opened Wrappers
  import opened SyncRows
  import opened SyncMachine
  import opened SyncService

  lemma {:induction false} RecoveredRest(jobs: map<JobId, Job>, candidates: seq<JobId>, legacy: bool)
    requires candidates != []
    ensures var j := candidates[0];
      var first := if j in jobs && Recoverable(jobs[j], legacy) then jobs[j := RecoverRow(jobs[j])] else jobs;
      Recovered(jobs, candidates, legacy) == Recovered(first, candidates[1..], legacy)
  {
    assert candidates == [candidates[0]] + candidates[1..];
  }

  /** With nobody else running, recovering FAILED rows is one guarded step per row moved. */
  lemma {:induction false} RecoveryIsRun(s: State, candidates: seq<JobId>, legacy: bool) returns (steps: seq<Step>)
    ensures Run(s, steps, s.(jobs := Recovered(s.jobs, candidates, legacy)))
    ensures forall i :: 0 <= i < |steps| ==> steps[i].RecoverFailed?
    decreases |candidates|
  {
    if candidates == [] {
      assert Recovered(s.jobs, [], legacy) == s.jobs;
      steps := [];
    } else {
      RecoveredRest(s.jobs, candidates, legacy);
      var j := candidates[0];
      if j in s.jobs && Recoverable(s.jobs[j], legacy) {
        var step := RecoverFailed(j, legacy);
        var t := Apply(s, step);
        assert t == s.(jobs := s.jobs[j := RecoverRow(s.jobs[j])]);
        var rest := RecoveryIsRun(t, candidates[1..], legacy);
        steps := [step] + rest;
        assert steps[1..] == rest;
      } else {
        steps := RecoveryIsRun(s, candidates[1..], legacy);
      }
    }
  }

  /** The query reads only leases that have run out. */
  predicate SeenStale(stale: seq<(JobId, Millis)>, now: Millis) {
    forall i :: 0 <= i < |stale| ==> stale[i].1 + STALE_LEASE_MS < now
  }

  lemma ReclaimedRest(jobs: map<JobId, Job>, stale: seq<(JobId, Millis)>)
    requires stale != []
    ensures var (j, seen) := stale[0];
      var first := if j in jobs && HeldBy(jobs[j], seen) then jobs[j := ReclaimRow(jobs[j])] else jobs;
      Reclaimed(jobs, stale) == Reclaimed(first, stale[1..])
  {
    assert stale == [stale[0]] + stale[1..];
    forall k, at ensures (k, at) in stale <==> (k, at) == stale[0] || (k, at) in stale[1..] {}
    var (j, seen) := stale[0];
    var first := if j in jobs && HeldBy(jobs[j], seen) then jobs[j := ReclaimRow(jobs[j])] else jobs;
    forall k | k in jobs ensures Reclaimed(jobs, stale)[k] == Reclaimed(first, stale[1..])[k] {
      if k == j && jobs[k].startedAt == Some(seen) {}
    }
  }

  lemma {:induction false} ReclaimIsRun(s: State, stale: seq<(JobId, Millis)>) returns (steps: seq<Step>)
    requires SeenStale(stale, s.clock)
    ensures Run(s, steps, s.(jobs := Reclaimed(s.jobs, stale)))
    ensures forall i :: 0 <= i < |steps| ==> steps[i].ReclaimStale?
    decreases |stale|
  {
    if stale == [] {
      assert Reclaimed(s.jobs, []) == s.jobs;
      steps := [];
    } else {
      ReclaimedRest(s.jobs, stale);
      var (j, seen) := stale[0];
      if j in s.jobs && HeldBy(s.jobs[j], seen) {
        var step := ReclaimStale(j, seen);
        var t := Apply(s, step);
        assert t == s.(jobs := s.jobs[j := ReclaimRow(s.jobs[j])]);
        var rest := ReclaimIsRun(t, stale[1..]);
        steps := [step] + rest;
        assert steps[1..] == rest;
      } else {
        steps := ReclaimIsRun(s, stale[1..]);
      }
    }
  }
}
