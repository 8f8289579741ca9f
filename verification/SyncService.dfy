/**
 * The queue service and the processor as they act on their tables. What a method promises its
 * caller determines the row update the transition system makes of it (the `...Iff` lemmas).
 */
module SyncService {
  import opened Wrappers
  import opened SyncRows
  import opened SyncRecovery

  datatype Enqueued = Enqueued(id: JobId, force: bool)

  class ProfileSyncTables {
    var jobs: map<JobId, Job>
    var subs: map<SubId, Sub>
    var projections: map<SubId, Projection>
    var queue: seq<Enqueued>
    var alerts: seq<JobId>

    /** `sweepPending`: every row the query returned is handed to the queue, in order. */
    method SweepPending(pending: seq<JobId>) returns (swept: nat)
      modifies this`queue
      ensures swept == |pending|
      ensures queue == old(queue) + seq(|pending|, i requires 0 <= i < |pending| => Enqueued(pending[i], false))
    {
      swept := 0;
      while swept < |pending|
        invariant 0 <= swept <= |pending|
        invariant queue == old(queue) + seq(swept, i requires 0 <= i < swept => Enqueued(pending[i], false))
      {
        queue := queue + [Enqueued(pending[swept], false)];
        swept := swept + 1;
      }
    }

    /**
     * The FAILED pass of `sweepAndRecover`. `candidates` is what its query saw, possibly stale by now;
     * `added` names the rows it moved, each once.
     */
    method RecoverFailed(candidates: seq<JobId>, legacy: bool) returns (recovered: nat, ghost added: seq<JobId>)
      modifies this`jobs, this`queue
      ensures jobs == Recovered(old(jobs), candidates, legacy)
      ensures queue == old(queue) + Forced(added) && recovered == |added|
      ensures forall j :: j in added <==> j in candidates && j in old(jobs) && Recoverable(old(jobs)[j], legacy)
      ensures forall i, k :: 0 <= i < k < |added| ==> added[i] != added[k]
    {
      recovered, added := 0, [];
      for i := 0 to |candidates|
        invariant jobs == Recovered(old(jobs), candidates[..i], legacy)
        invariant queue == old(queue) + Forced(added) && recovered == |added|
        invariant forall j ::
          j in added <==> j in candidates[..i] && j in old(jobs) && Recoverable(old(jobs)[j], legacy)
        invariant forall a, b :: 0 <= a < b < |added| ==> added[a] != added[b]
      {
        var j := candidates[i];
        assert candidates[..i + 1] == candidates[..i] + [j];
        RecoveredMore(old(jobs), candidates[..i], j, legacy);
        if j in jobs && Recoverable(jobs[j], legacy) {
          jobs := jobs[j := RecoverRow(jobs[j])];
          queue := queue + [Enqueued(j, true)];
          ForcedAppend(added, j);
          recovered, added := recovered + 1, added + [j];
        }
      }
      assert candidates[..|candidates|] == candidates;
    }

    /** The stale-RUNNING pass: each row is reclaimed only under the very `startedAt` the query saw. */
    method ReclaimStale(stale: seq<(JobId, Millis)>) returns (reclaimed: nat, ghost added: seq<JobId>)
      modifies this`jobs, this`queue
      ensures jobs == Reclaimed(old(jobs), stale)
      ensures queue == old(queue) + Forced(added) && reclaimed == |added|
      ensures forall j :: j in added <==> j in old(jobs) && jobs[j] != old(jobs)[j]
    {
      reclaimed, added := 0, [];
      for i := 0 to |stale|
        invariant jobs == Reclaimed(old(jobs), stale[..i])
        invariant queue == old(queue) + Forced(added) && reclaimed == |added|
        invariant forall j :: j in added <==> j in old(jobs) && jobs[j] != old(jobs)[j]
      {
        var j, seen := stale[i].0, stale[i].1;
        assert stale[..i + 1] == stale[..i] + [(j, seen)];
        ReclaimedMore(old(jobs), stale[..i], j, seen);
        if j in jobs && HeldBy(jobs[j], seen) {
          jobs := jobs[j := ReclaimRow(jobs[j])];
          queue := queue + [Enqueued(j, true)];
          ForcedAppend(added, j);
          reclaimed, added := reclaimed + 1, added + [j];
        }
      }
      assert stale[..|stale|] == stale;
    }

    /**
     * `supersedeIfStaleRevision`: a versioned job behind its projection is dropped, and so is
     * one that is not a DELETE while a DELETE is queued; anything else is left to run.
     */
    method SupersedeIfStaleRevision(id: JobId, job: Job, projectionSync: bool) returns (stop: bool)
      modifies this`jobs
      ensures stop <==> projectionSync && IsVersioned(job) && (Behind(job, projections) || GivesWay(job, old(jobs)))
      ensures jobs == if !stop then old(jobs)
                      else SupersedeIn(old(jobs), id, if Behind(job, projections) then ByRevision else ByDelete)
      ensures !IsVersioned(job) ==> jobs == old(jobs)
    {
      if !projectionSync { return false; }
      if job.aggregateKey.None? || job.desiredRevision.None? { return false; }
      var key, revision := job.aggregateKey.value, job.desiredRevision.value;
      if key !in projections || projections[key].desiredRevision <= revision {
        if !job.action.Delete? && HasPendingDelete(jobs, key) {
          MarkSuperseded(id, ByDelete);
          return true;
        }
        return false;
      }
      MarkSuperseded(id, ByRevision);
      return true;
    }

    method MarkSuperseded(id: JobId, reason: Supersession)
      modifies this`jobs
      ensures jobs == SupersedeIn(old(jobs), id, reason)
    {
      if id in jobs && Claimable(jobs[id]) { jobs := jobs[id := SupersedeRow(jobs[id], reason)]; }
    }

    /** The claim of `process`; the result is the lease, if the guard let us in. */
    method Claim(id: JobId, now: Millis) returns (lease: Option<Millis>)
      modifies this`jobs
      ensures lease == if id in old(jobs) && Claimable(old(jobs)[id]) then Some(now) else None
      ensures Claimed(old(jobs), jobs, id, lease)
    {
      lease := None;
      if id in jobs && Claimable(jobs[id]) {
        jobs := jobs[id := ClaimRow(jobs[id], now)];
        lease := Some(now);
      }
    }

    /**
     * The fenced completion, then the older siblings of a versioned job: no other row is touched,
     * no open older sibling survives, and nothing of the same or a newer revision is dropped.
     */
    method Complete(id: JobId, lease: Millis, job: Job, projectionSync: bool) returns (completed: bool)
      modifies this`jobs
      ensures completed <==> id in old(jobs) && HeldBy(old(jobs)[id], lease)
      ensures jobs.Keys == old(jobs).Keys && (!completed ==> jobs == old(jobs))
      ensures completed ==> jobs[id] == CompleteRow(old(jobs)[id])
      ensures forall j :: j in jobs && j != id && jobs[j] != old(jobs)[j] ==>
        && completed && projectionSync && IsVersioned(job)
        && OlderSibling(old(jobs)[j], job.aggregateKey.value, job.desiredRevision.value)
        && jobs[j] == SupersedeRow(old(jobs)[j], ByRevision)
      ensures completed && projectionSync && IsVersioned(job) ==>
        forall j :: j in jobs ==> !OlderSibling(jobs[j], job.aggregateKey.value, job.desiredRevision.value)
      ensures forall j :: j in jobs && j != id && Newer(job, old(jobs)[j]) ==> jobs[j] == old(jobs)[j]
    {
      completed := id in jobs && HeldBy(jobs[id], lease);
      if !completed { return; }
      jobs := jobs[id := CompleteRow(jobs[id])];
      if projectionSync && IsVersioned(job) {
        jobs := SupersedeSiblings(jobs, job.aggregateKey.value, job.desiredRevision.value);
      }
    }

    /** `recordFailure` then `reportFailure`: the alert follows the verdict that was persisted, or nothing. */
    method RecordFailure(id: JobId, lease: Millis, job: Job, error: Error, now: Millis)
      modifies this`jobs, this`alerts
      ensures var verdict := ClassifyRecovery(error, Some(job.createdAt), now);
        && jobs == FailIn(old(jobs), id, lease, verdict)
        && (alerts == old(alerts) + [id] <==>
              && id in old(jobs) && HeldBy(old(jobs)[id], lease)
              && jobs[id].recovery == Some(Terminal) && job.attempts + 1 >= MAX_ATTEMPTS)
        && (alerts == old(alerts) || alerts == old(alerts) + [id])
    {
      var classification := ClassifyRecovery(error, Some(job.createdAt), now);
      var recorded := id in jobs && HeldBy(jobs[id], lease);
      if recorded { jobs := jobs[id := FailRow(jobs[id], classification)]; }
      var attempt := job.attempts + 1;
      if !recorded { return; }
      if attempt >= MAX_ATTEMPTS && classification.Terminal? { alerts := alerts + [id]; }
    }

    /** `persistProfileLink`, one transaction: a profile linked to a row that is not ACTIVE is queued for deletion. */
    method PersistProfileLink(id: SubId, profile: ProfileId, newId: JobId, now: Millis)
      returns (deleteJob: Option<JobId>)
      requires id in subs && newId !in jobs
      modifies this`jobs, this`subs
      ensures subs == old(subs)[id := old(subs)[id].(link := Some(profile))]
      ensures if subs[id].status.Active? then jobs == old(jobs)
              else DeleteEnsured(old(jobs), jobs, id, profile, newId, now)
      ensures deleteJob.Some? <==> jobs != old(jobs)
    {
      subs := subs[id := subs[id].(link := Some(profile))];
      deleteJob := None;
      if !subs[id].status.Active? {
        deleteJob := CreateDeleteJobIfMissing(id, profile, newId, now);
      }
    }

    method CreateDeleteJobIfMissing(id: SubId, profile: ProfileId, newId: JobId, now: Millis)
      returns (created: Option<JobId>)
      requires newId !in jobs
      modifies this`jobs
      ensures DeleteEnsured(old(jobs), jobs, id, profile, newId, now)
      ensures created == if HasOpenDelete(old(jobs), id, profile) then None else Some(newId)
    {
      if HasOpenDelete(jobs, id, profile) { return None; }
      jobs := jobs[newId := NewJob(id, Delete, Some(profile), None, None, now)];
      assert OpenDelete(jobs[newId], id, profile);
      created := Some(newId);
    }

    /** After a push: a subscription deleted meanwhile gets its DELETE for the profile just written. */
    method EnsureDeleteJobIfDeleted(id: SubId, target: Option<ProfileId>, newId: JobId, now: Millis)
      returns (created: Option<JobId>)
      requires newId !in jobs
      modifies this`jobs
      ensures if target.Some? && id in subs && subs[id].status.Deleted?
              then DeleteEnsured(old(jobs), jobs, id, target.value, newId, now) else jobs == old(jobs)
      ensures created.Some? <==> jobs != old(jobs)
    {
      if target.None? { return None; }
      created := None;
      if id in subs && subs[id].status.Deleted? {
        created := CreateDeleteJobIfMissing(id, target.value, newId, now);
      }
    }

    /** After a 404: the stale link is dropped, a newer one wins. */
    method ReprovisionMissingProfile(id: SubId, stale: ProfileId)
      modifies this`subs
      ensures LinkDropped(old(subs), subs, id, stale) && (id in subs ==> subs[id].status == old(subs)[id].status)
    {
      if id in subs && subs[id].link == Some(stale) { subs := subs[id := subs[id].(link := None)]; }
    }

    /** The fenced retirement after a confirmed panel deletion: a newer link wins. */
    method Retire(id: SubId, target: ProfileId)
      modifies this`subs
      ensures LinkDropped(old(subs), subs, id, target)
      ensures id in subs && subs[id] != old(subs)[id] ==> subs[id].status.Deleted?
    {
      if id in subs && subs[id].link == Some(target) {
        subs := subs[id := subs[id].(link := None, status := Deleted)];
      }
    }

    /**
     * The end of the strict write: `observed` is what the panel read back. A mismatch throws
     * and applies nothing; a match is stamped only while its revision is still the desired one.
     */
    method CommitIfConfirmed(id: SubId, revision: nat, limits: Limits, observed: Limits) returns (confirmed: bool)
      modifies this`projections
      ensures confirmed <==> observed == limits
      ensures if confirmed then Stamped(old(projections), projections, id, revision)
              else projections == old(projections)
    {
      confirmed := observed == limits;
      if confirmed && id in projections && projections[id].desiredRevision == revision {
        projections := projections[id := projections[id].(lastApplied := Some(revision))];
      }
    }
  }

  // ---- what a caller may rely on ----

  /** Only the entry under `key` may have changed. */
  predicate SameBut<K(==), V(==)>(before: map<K, V>, after: map<K, V>, key: K) {
    && after.Keys - {key} == before.Keys - {key}
    && forall k :: k in before && k != key ==> k in after && after[k] == before[k]
  }

  lemma SameButOne<K, V>(before: map<K, V>, after: map<K, V>, key: K)
    requires SameBut(before, after, key)
    ensures key in after ==> after == before[key := after[key]]
    ensures key !in after && key !in before ==> after == before
    ensures key in after && key in before && after[key] == before[key] ==> after == before
  {
    forall k | k != key ensures k in after <==> k in before {
      assert k in after.Keys - {key} <==> k in before.Keys - {key};
    }
  }

  lemma SetOne<K, V>(before: map<K, V>, key: K, v: V)
    ensures SameBut(before, before[key := v], key) && SameBut(before, before, key)
  {
  }

  /** The lease is on the row, one attempt more and no verdict; without it nothing changed. */
  predicate Claimed(before: map<JobId, Job>, after: map<JobId, Job>, id: JobId, lease: Option<Millis>) {
    match lease
    case None => after == before
    case Some(now) =>
      && SameBut(before, after, id) && id in before && id in after
      && HeldBy(after[id], now) && after[id].recovery.None? && after[id].attempts == before[id].attempts + 1
      && SameIdentity(after[id], before[id]) && after[id].cause == before[id].cause
  }

  lemma ClaimedIff(before: map<JobId, Job>, after: map<JobId, Job>, id: JobId, now: Millis)
    ensures Claimed(before, after, id, if id in before && Claimable(before[id]) then Some(now) else None)
      <==> after == ClaimIn(before, id, now)
  {
    if id in before && Claimable(before[id]) {
      SetOne(before, id, ClaimRow(before[id], now));
      if SameBut(before, after, id) { SameButOne(before, after, id); }
    }
    hide SameBut;
  }

  /** A DELETE of the profile is open, all rows are as they were, and none was added if one was open. */
  predicate DeleteEnsured(before: map<JobId, Job>, after: map<JobId, Job>, sub: SubId, target: ProfileId,
                          newId: JobId, now: Millis) {
    && HasOpenDelete(after, sub, target) && SameBut(before, after, newId)
    && (newId in before || HasOpenDelete(before, sub, target) ==> after == before)
    && (newId in after && newId !in before ==> after[newId] == NewJob(sub, Delete, Some(target), None, None, now))
  }

  lemma DeleteEnsuredIff(before: map<JobId, Job>, after: map<JobId, Job>, sub: SubId, target: ProfileId,
                         newId: JobId, now: Millis)
    requires newId !in before
    ensures DeleteEnsured(before, after, sub, target, newId, now)
      <==> after == EnsureDelete(before, sub, target, newId, now)
  {
    var job := NewJob(sub, Delete, Some(target), None, None, now);
    var added := before[newId := job];
    SetOne(before, newId, job);
    assert OpenDelete(added[newId], sub, target) && HasOpenDelete(added, sub, target);
    if SameBut(before, after, newId) { SameButOne(before, after, newId); }
    hide SameBut;
  }

  /** The row is not linked to that profile; any other row or link, and every other column but the status, stays. */
  predicate LinkDropped(before: map<SubId, Sub>, after: map<SubId, Sub>, id: SubId, gone: ProfileId) {
    && SameBut(before, after, id) && (id in after <==> id in before)
    && (id in after ==>
          && after[id].user == before[id].user && after[id].name == before[id].name
          && after[id].fields == before[id].fields
          && if before[id].link == Some(gone) then after[id].link.None? else after[id] == before[id])
  }

  lemma LinkDroppedIff(before: map<SubId, Sub>, after: map<SubId, Sub>, id: SubId, gone: ProfileId)
    ensures LinkDropped(before, after, id, gone) && (id in after ==> after[id].status == before[id].status)
      <==> after == DetachIn(before, id, gone)
    ensures LinkDropped(before, after, id, gone)
              && (id in after && after[id] != before[id] ==> after[id].status.Deleted?)
      <==> after == RetireIn(before, id, gone)
  {
    if id in before {
      SetOne(before, id, before[id].(link := None));
      SetOne(before, id, before[id].(link := None, status := Deleted));
    }
    assert SameBut(before, before, id);
    if SameBut(before, after, id) { SameButOne(before, after, id); }
    hide SameBut;
  }

  /** Stamped applied only if that revision is still the desired one; what is desired stays. */
  predicate Stamped(before: map<SubId, Projection>, after: map<SubId, Projection>, id: SubId, revision: nat) {
    && SameBut(before, after, id) && (id in after <==> id in before)
    && (id in after ==>
          && after[id].desiredRevision == before[id].desiredRevision && after[id].desired == before[id].desired
          && after[id].lastApplied
             == if before[id].desiredRevision == revision then Some(revision) else before[id].lastApplied)
  }

  lemma StampedIff(before: map<SubId, Projection>, after: map<SubId, Projection>, id: SubId, revision: nat)
    ensures Stamped(before, after, id, revision) <==> after == AppliedIn(before, id, revision)
  {
    if id in before { SetOne(before, id, before[id].(lastApplied := Some(revision))); }
    assert SameBut(before, before, id);
    if SameBut(before, after, id) { SameButOne(before, after, id); }
    hide SameBut;
  }

  // ---- when a versioned job is dropped ----

  /** `other` is of another aggregate, unversioned, or of the same or a newer revision. */
  predicate Newer(job: Job, other: Job) {
    IsVersioned(job) && IsVersioned(other) && other.aggregateKey == job.aggregateKey
    ==> job.desiredRevision.value <= other.desiredRevision.value
  }

  predicate Behind(job: Job, projections: map<SubId, Projection>)
    requires IsVersioned(job)
  {
    Outdated(projections, job.aggregateKey.value, job.desiredRevision.value)
  }

  predicate GivesWay(job: Job, jobs: map<JobId, Job>)
    requires IsVersioned(job)
  {
    !job.action.Delete? && HasPendingDelete(jobs, job.aggregateKey.value)
  }

  // ---- what the sweeps compute ----

  function Forced(ids: seq<JobId>): seq<Enqueued> {
    seq(|ids|, i requires 0 <= i < |ids| => Enqueued(ids[i], true))
  }

  lemma ForcedAppend(ids: seq<JobId>, j: JobId)
    ensures Forced(ids + [j]) == Forced(ids) + [Enqueued(j, true)]
  {
  }

  function Recovered(jobs: map<JobId, Job>, candidates: seq<JobId>, legacy: bool): map<JobId, Job> {
    map j | j in jobs :: if j in candidates && Recoverable(jobs[j], legacy) then RecoverRow(jobs[j]) else jobs[j]
  }

  function Reclaimed(jobs: map<JobId, Job>, stale: seq<(JobId, Millis)>): map<JobId, Job> {
    map j | j in jobs ::
      if jobs[j].startedAt.Some? && (j, jobs[j].startedAt.value) in stale && HeldBy(jobs[j], jobs[j].startedAt.value)
      then ReclaimRow(jobs[j]) else jobs[j]
  }

  /** One more candidate: moved under its guard, unless it was moved already. */
  lemma RecoveredMore(jobs: map<JobId, Job>, done: seq<JobId>, j: JobId, legacy: bool)
    ensures var now := Recovered(jobs, done, legacy);
      Recovered(jobs, done + [j], legacy)
      == if j in now && Recoverable(now[j], legacy) then now[j := RecoverRow(now[j])] else now
  {
  }

  lemma ReclaimedMore(jobs: map<JobId, Job>, done: seq<(JobId, Millis)>, j: JobId, seen: Millis)
    ensures var now := Reclaimed(jobs, done);
      Reclaimed(jobs, done + [(j, seen)])
      == if j in now && HeldBy(now[j], seen) then now[j := ReclaimRow(now[j])] else now
  {
  }

  // ---- the convergence loop of `handleUpdate` ----

  datatype UpdateResult = Converged(rounds: nat) | Unlinked(round: nat) | Missing(round: nat) | Churning

  const UPDATE_ROUNDS: nat := 3

  /**
   * `rows[k]` is the row as loaded before push `k`, `rows[k + 1]` the row re-read after it, and `gone[k]`
   * says that push `k` is answered with 404. Pushes the row again as long as it changed under the push.
   */
  method ConvergeUpdate(rows: seq<Sub>, gone: seq<bool>) returns (result: UpdateResult, pushed: seq<Fields>)
    requires |rows| == UPDATE_ROUNDS + 1 && |gone| == UPDATE_ROUNDS
    ensures |pushed| <= UPDATE_ROUNDS
    ensures forall k :: 0 <= k < |pushed| ==> rows[k].link.Some? && !gone[k] && pushed[k] == rows[k].fields
    ensures forall k :: 0 <= k < |pushed| - 1 ==> !SameFingerprint(rows[k], rows[k + 1])
    ensures match result
            case Converged(rounds) => rounds == |pushed| > 0 && rows[rounds].fields == pushed[rounds - 1]
                                      && SameFingerprint(rows[rounds - 1], rows[rounds])
            case Unlinked(round) => round == |pushed| < UPDATE_ROUNDS && rows[round].link.None?
                                    && (round > 0 ==> !SameFingerprint(rows[round - 1], rows[round]))
            case Missing(round) => round == |pushed| < UPDATE_ROUNDS && rows[round].link.Some? && gone[round]
                                   && (round > 0 ==> !SameFingerprint(rows[round - 1], rows[round]))
            case Churning => |pushed| == UPDATE_ROUNDS && !SameFingerprint(rows[UPDATE_ROUNDS - 1], rows[UPDATE_ROUNDS])
  {
    var current := rows[0];
    pushed := [];
    for attempt := 0 to UPDATE_ROUNDS
      invariant |pushed| == attempt && current == rows[attempt]
      invariant forall k :: 0 <= k < attempt ==> rows[k].link.Some? && !gone[k] && pushed[k] == rows[k].fields
      invariant forall k :: 0 <= k < attempt ==> !SameFingerprint(rows[k], rows[k + 1])
    {
      if current.link.None? { return Unlinked(attempt), pushed; }
      if gone[attempt] { return Missing(attempt), pushed; }
      pushed := pushed + [current.fields];
      var latest := rows[attempt + 1];
      if SameFingerprint(latest, current) { return Converged(attempt + 1), pushed; }
      current := latest;
    }
    result := Churning;
  }
}
