/**
 * An UPDATE job that nothing disturbs, step by step; and what such runs can be
 * made to do when a reclaimed worker turns out to be alive.
 */
module SyncProgress {
  import opened Wrappers
  import opened SyncRows
  import Naming
  import OwnerMarker
  import opened SyncMachine
  import opened SyncLinks
  import opened SyncSafety
  import opened SyncConvergence

  /** A step that can be taken, deletes nothing and leads to `t`. */
  ghost predicate Leads(s: State, step: Step, t: State) { Enabled(s, step) && !step.DeleteSub? && Apply(s, step) == t }

  /** A run through states in which the subscription stays linked: an admissible run, but for who may be reclaimed. */
  ghost predicate LinkedRun(s: State, steps: seq<Step>, t: State, id: SubId, p: ProfileId)
    decreases |steps|
  {
    && Linked(s, id, p)
    && if steps == [] then s == t
       else Enabled(s, steps[0]) && !steps[0].DeleteSub? && LinkedRun(Apply(s, steps[0]), steps[1..], t, id, p)
  }

  lemma {:induction false} LinkedRunIsRun(s: State, steps: seq<Step>, t: State, id: SubId, p: ProfileId)
    requires LinkedRun(s, steps, t, id, p)
    ensures Run(s, steps, t) && Linked(t, id, p)
    decreases |steps|
  {
    if steps != [] {
      hide Enabled, Apply;
      LinkedRunIsRun(Apply(s, steps[0]), steps[1..], t, id, p);
    }
  }

  lemma {:induction false} Snoc(s: State, steps: seq<Step>, t: State, step: Step, u: State, id: SubId, p: ProfileId)
    requires LinkedRun(s, steps, t, id, p) && Leads(t, step, u) && Linked(u, id, p)
    ensures LinkedRun(s, steps + [step], u, id, p)
    decreases |steps|
  {
    hide Linked;
    if steps == [] {
      assert [step][1..] == [];
      assert LinkedRun(u, [], u, id, p);
      assert steps + [step] == [step];
    } else {
      assert (steps + [step])[1..] == steps[1..] + [step];
      Snoc(Apply(s, steps[0]), steps[1..], t, step, u, id, p);
      hide Enabled, Apply;
    }
  }

  lemma {:induction false} Concat(s: State, a: seq<Step>, t: State, b: seq<Step>, u: State, id: SubId, p: ProfileId)
    requires LinkedRun(s, a, t, id, p) && LinkedRun(t, b, u, id, p)
    ensures LinkedRun(s, a + b, u, id, p)
    decreases |a|
  {
    if a == [] {
      assert a + b == b;
    } else {
      hide Enabled, Apply, Linked;
      assert (a + b)[1..] == a[1..] + b;
      Concat(Apply(s, a[0]), a[1..], t, b, u, id, p);
    }
  }

  /** Worker `w` works for the linked, unversioned subscription `id` of profile `p`. */
  ghost predicate OnDuty(s: State, w: WorkerId, id: SubId, p: ProfileId) {
    && Linked(s, id, p) && !s.subs[id].status.Deleted?
    && w in s.workers && s.workers[w].id in s.jobs && s.workers[w].sub.user in s.users
    && s.workers[w].job.subscription == id && s.workers[w].job.action.Update? && !s.workers[w].job.superseded
  }

  ghost function At(s: State, w: WorkerId, me: Worker): State { s.(workers := s.workers[w := me]) }

  lemma Starts(s: State, w: WorkerId, j: JobId)
    requires w !in s.workers && j in s.jobs && s.jobs[j].subscription in s.subs
    requires Unfinished(s.jobs[j]) && !s.jobs[j].superseded
    ensures Leads(s, Start(w, j), At(s, w, Worker(j, s.jobs[j], s.subs[s.jobs[j].subscription], 0, Loaded)))
  {
  }

  lemma Loads(s: State, w: WorkerId, id: SubId, p: ProfileId)
    requires OnDuty(s, w, id, p) && s.workers[w].pc.Loaded?
    ensures Leads(s, Advance(w, 0, None), At(s, w, s.workers[w].(pc := ReadyToClaim)))
  {
  }

  lemma Claims(s: State, w: WorkerId, id: SubId, p: ProfileId)
    requires OnDuty(s, w, id, p) && s.workers[w].pc.ReadyToClaim? && Claimable(s.jobs[s.workers[w].id])
    ensures Leads(s, Advance(w, 0, None),
                  At(s, w, s.workers[w].(lease := s.clock, pc := Reloading))
                  .(jobs := ClaimIn(s.jobs, s.workers[w].id, s.clock)))
  {
  }

  lemma Reloads(s: State, w: WorkerId, id: SubId, p: ProfileId)
    requires OnDuty(s, w, id, p) && s.workers[w].pc.Reloading?
    ensures Leads(s, Advance(w, 0, None), At(s, w, s.workers[w].(sub := s.subs[id], pc := Patching(0))))
  {
  }

  /** The profile carries the user's description and the row's fields. */
  ghost function Pushed(s: State, p: ProfileId, sub: Sub): map<ProfileId, Profile>
    requires p in s.panel && sub.user in s.users
  {
    s.panel[p := s.panel[p].(description := OwnerMarker.Description(s.users[sub.user]),
                             fields := Patch(s.panel[p].fields, sub.fields))]
  }

  lemma Pushes(s: State, w: WorkerId, id: SubId, p: ProfileId)
    requires OnDuty(s, w, id, p) && s.workers[w].pc == Patching(0) && s.workers[w].sub.link == Some(p)
    ensures Leads(s, Advance(w, 0, None),
                  At(s, w, s.workers[w].(pc := Verifying(0))).(panel := Pushed(s, p, s.workers[w].sub)))
  {
  }

  lemma Verifies(s: State, w: WorkerId, id: SubId, p: ProfileId)
    requires OnDuty(s, w, id, p) && s.workers[w].pc == Verifying(0) && s.workers[w].sub == s.subs[id]
    ensures Leads(s, Advance(w, 0, None), At(s, w, s.workers[w].(pc := EnsuringDelete(p))))
  {
  }

  lemma EnsuresNothing(s: State, w: WorkerId, id: SubId, p: ProfileId, newId: JobId)
    requires OnDuty(s, w, id, p) && s.workers[w].pc == EnsuringDelete(p) && newId !in s.jobs
    ensures Leads(s, Advance(w, newId, None), At(s, w, s.workers[w].(pc := Finishing)))
  {
  }

  lemma Completes(s: State, w: WorkerId, id: SubId, p: ProfileId)
    requires OnDuty(s, w, id, p) && s.workers[w].pc.Finishing? && HeldBy(s.jobs[s.workers[w].id], s.workers[w].lease)
    ensures Leads(s, Advance(w, 0, None),
                  At(s, w, s.workers[w].(pc := Sibling))
                  .(jobs := CompleteIn(s.jobs, s.workers[w].id, s.workers[w].lease)))
  {
  }

  lemma Returns(s: State, w: WorkerId, id: SubId, p: ProfileId)
    requires OnDuty(s, w, id, p) && s.workers[w].pc.Sibling?
    ensures Leads(s, Advance(w, 0, None), s.(workers := s.workers - {w}))
  {
  }

  // ---- one whole run ----

  /** A queued UPDATE of the linked, live subscription `id`. */
  ghost predicate Queued(s: State, j: JobId, id: SubId, p: ProfileId) {
    && Linked(s, id, p) && !s.subs[id].status.Deleted? && s.subs[id].user in s.users
    && j in s.jobs && s.jobs[j].subscription == id && s.jobs[j].action.Update? && Claimable(s.jobs[j])
  }

  /** Up to the push: the row is claimed, the subscription is read once more. */
  lemma ClaimedAndLoaded(s: State, w: WorkerId, j: JobId, id: SubId, p: ProfileId) returns (steps: seq<Step>, t: State)
    requires Queued(s, j, id, p) && w !in s.workers
    ensures LinkedRun(s, steps, t, id, p)
    ensures t == At(s, w, Worker(j, s.jobs[j], s.subs[id], s.clock, Patching(0)))
                 .(jobs := s.jobs[j := ClaimRow(s.jobs[j], s.clock)])
  {
    hide Enabled, Apply, Leads, LinkedRun;
    steps, t := [], s;
    assert LinkedRun(s, [], s, id, p) by { EmptyRun(s, id, p); }
    var me := Worker(j, s.jobs[j], s.subs[id], 0, Loaded);
    Starts(s, w, j);
    steps, t := Extend(s, steps, t, Start(w, j), At(s, w, me), id, p);
    Loads(t, w, id, p);
    steps, t := Extend(s, steps, t, Advance(w, 0, None), At(t, w, me.(pc := ReadyToClaim)), id, p);
    Claims(t, w, id, p);
    steps, t := Extend(s, steps, t, Advance(w, 0, None),
                       At(t, w, me.(lease := s.clock, pc := Reloading)).(jobs := ClaimIn(s.jobs, j, s.clock)), id, p);
    Reloads(t, w, id, p);
    steps, t := Extend(s, steps, t, Advance(w, 0, None), At(t, w, me.(lease := s.clock, pc := Patching(0))), id, p);
  }

  lemma EmptyRun(s: State, id: SubId, p: ProfileId)
    requires Linked(s, id, p)
    ensures LinkedRun(s, [], s, id, p)
  {
  }

  lemma Extend(s: State, steps: seq<Step>, t: State, step: Step, u: State, id: SubId, p: ProfileId)
    returns (longer: seq<Step>, last: State)
    requires LinkedRun(s, steps, t, id, p) && Leads(t, step, u) && Linked(u, id, p)
    ensures last == u && LinkedRun(s, longer, u, id, p)
  {
    Snoc(s, steps, t, step, u, id, p);
    longer, last := steps + [step], u;
  }

  lemma PushedAndVerified(s: State, before: seq<Step>, at: State, w: WorkerId, id: SubId, p: ProfileId, newId: JobId)
    returns (steps: seq<Step>, t: State)
    requires LinkedRun(s, before, at, id, p) && OnDuty(at, w, id, p) && newId !in at.jobs
    requires at.workers[w].pc == Patching(0) && at.workers[w].sub == at.subs[id]
    ensures LinkedRun(s, steps, t, id, p)
    ensures t == At(at, w, at.workers[w].(pc := Finishing)).(panel := Pushed(at, p, at.subs[id]))
  {
    hide Enabled, Apply, Leads, LinkedRun;
    var me := at.workers[w];
    steps, t := before, at;
    Pushes(t, w, id, p);
    steps, t := Extend(s, steps, t, Advance(w, 0, None),
                       At(t, w, me.(pc := Verifying(0))).(panel := Pushed(t, p, t.subs[id])), id, p);
    Verifies(t, w, id, p);
    steps, t := Extend(s, steps, t, Advance(w, 0, None), At(t, w, me.(pc := EnsuringDelete(p))), id, p);
    EnsuresNothing(t, w, id, p, newId);
    steps, t := Extend(s, steps, t, Advance(w, newId, None), At(t, w, me.(pc := Finishing)), id, p);
  }

  /** Undisturbed, an UPDATE job pushes the row, completes, and changes nothing else. */
  lemma SoloUpdate(s: State, w: WorkerId, j: JobId, id: SubId, p: ProfileId, newId: JobId)
    returns (steps: seq<Step>, t: State)
    requires Queued(s, j, id, p) && w !in s.workers && newId !in s.jobs
    ensures LinkedRun(s, steps, t, id, p)
    ensures t == s.(jobs := s.jobs[j := CompleteRow(ClaimRow(s.jobs[j], s.clock))], panel := Pushed(s, p, s.subs[id]))
    ensures Synced(t.panel[p].fields, t.subs[id].fields) && t.jobs[j].status.Completed?
  {
    hide Enabled, Apply, Leads, LinkedRun;
    steps, t := ClaimedAndLoaded(s, w, j, id, p);
    steps, t := PushedAndVerified(s, steps, t, w, id, p, newId);
    var me := t.workers[w];
    Completes(t, w, id, p);
    steps, t := Extend(s, steps, t, Advance(w, 0, None),
                       At(t, w, me.(pc := Sibling)).(jobs := CompleteIn(t.jobs, j, s.clock)), id, p);
    Returns(t, w, id, p);
    steps, t := Extend(s, steps, t, Advance(w, 0, None), t.(workers := t.workers - {w}), id, p);
    assert t.workers == s.workers;
    SyncedIffPushIsNoop(s.panel[p].fields, s.subs[id].fields);
  }

  // ---- why a reclaimed worker must be dead ----

  function Devices(n: int): Fields { Fields(None, Some(n), [], None, None, None, None) }

  /** One linked subscription for one device, its first sync queued. */
  ghost function OneQueued(): State {
    var ann := Naming.User("ann", None, None, None, None);
    State(0, false, map["ann" := ann], map[0 := NewJob(0, Update, None, None, None, 0)],
          map[0 := Sub("ann", "rz_ann_sub", Some(0), Active, Devices(1))], map[],
          map[0 := Profile("rz_ann_sub", OwnerMarker.Description(ann),
                           PanelFields(0, 0, [], None, 0, None, "NO_RESET"))],
          {0}, map[], History(map[], {}, {}, {}))
  }

  lemma OneQueuedIsLinked()
    ensures LinksOk(OneQueued()) && NoOrphan(OneQueued())
  {
    var s := OneQueued();
    AnnIsLegible();
    PrintedOwnerOfAnn();
    hide OwnerMarker.Description, OwnerMarker.Legible, OwnerMarker.IsId, Owner;
  }

  lemma PrintedOwnerOfAnn()
    ensures Owner(OneQueued().panel[0]) == Some("ann")
  {
    AnnIsLegible();
    OwnerMarker.OwnerReadsBackIff(OneQueued().users["ann"]);
    hide OwnerMarker.Description, OwnerMarker.ReadOwner, OwnerMarker.Legible, OwnerMarker.IsId;
  }

  lemma OneQueuedIsCalm()
    ensures Inv(OneQueued()) && CalmStart(OneQueued(), 0, 0) && Queued(OneQueued(), 0, 0, 0)
  {
    OneQueuedIsLinked();
    hide LinksOk, NoOrphan, OwnerMarker.Description;
    var s := OneQueued();
    assert Owes(s.jobs, s.panel, s.workers, 0, 0, 0);
  }

  lemma EditLeads(s: State, id: SubId, fields: Fields, j: JobId)
    requires id in s.subs && !s.subs[id].status.Deleted? && j !in s.jobs
    ensures Leads(s, Edit(id, fields, Update, None, None, j),
                  s.(subs := s.subs[id := s.subs[id].(fields := fields)],
                     jobs := s.jobs[j := NewJob(id, Update, None, None, None, s.clock)]))
  {
  }

  lemma TickLeads(s: State, ms: nat)
    ensures Leads(s, Tick(ms), s.(clock := s.clock + ms))
  {
  }

  lemma ReclaimLeads(s: State, j: JobId, lease: Millis)
    requires j in s.jobs && HeldBy(s.jobs[j], lease) && lease + STALE_LEASE_MS < s.clock
    ensures Leads(s, ReclaimStale(j, lease), s.(jobs := s.jobs[j := ReclaimRow(s.jobs[j])]))
  {
  }

  lemma CrashLeads(s: State, w: WorkerId)
    requires w in s.workers
    ensures Leads(s, Crash(w), s.(workers := s.workers - {w}))
  {
  }

  /** An edit, a long wait, and the reclaim of a running job. */
  lemma EditedAndReclaimed(s: State, before: seq<Step>, at: State, id: SubId, p: ProfileId, fields: Fields, j: JobId,
                           newJob: JobId)
    returns (steps: seq<Step>, t: State)
    requires LinkedRun(s, before, at, id, p) && Linked(at, id, p) && !at.subs[id].status.Deleted?
    requires j in at.jobs && HeldBy(at.jobs[j], at.clock) && newJob !in at.jobs
    ensures LinkedRun(s, steps, t, id, p)
    ensures t == at.(clock := at.clock + STALE_LEASE_MS + 1, subs := at.subs[id := at.subs[id].(fields := fields)],
                     jobs := at.jobs[newJob := NewJob(id, Update, None, None, None, at.clock)]
                                    [j := ReclaimRow(at.jobs[j])])
  {
    hide LinkedRun, Enabled, Apply, Leads;
    steps, t := before, at;
    EditLeads(t, id, fields, newJob);
    steps, t := Extend(s, steps, t, Edit(id, fields, Update, None, None, newJob),
                       t.(subs := t.subs[id := t.subs[id].(fields := fields)],
                          jobs := t.jobs[newJob := NewJob(id, Update, None, None, None, t.clock)]), id, p);
    TickLeads(t, STALE_LEASE_MS + 1);
    steps, t := Extend(s, steps, t, Tick(STALE_LEASE_MS + 1), t.(clock := t.clock + (STALE_LEASE_MS + 1)), id, p);
    ReclaimLeads(t, j, at.clock);
    steps, t := Extend(s, steps, t, ReclaimStale(j, at.clock), t.(jobs := t.jobs[j := ReclaimRow(t.jobs[j])]), id, p);
  }

  /** While a slow worker is about to push one device, the row is edited to two devices and its lease is reclaimed. */
  lemma SlowWorkerReclaimed() returns (steps: seq<Step>, t: State)
    ensures LinkedRun(OneQueued(), steps, t, 0, 0)
    ensures Queued(t, 0, 0, 0) && Queued(t, 1, 0, 0) && t.jobs.Keys == {0, 1} && t.workers.Keys == {0}
    ensures t.subs[0].fields == Devices(2)
    ensures OnDuty(t, 0, 0, 0) && t.workers[0].pc == Patching(0) && t.workers[0].sub.link == Some(0)
    ensures t.workers[0].sub.fields == Devices(1)
  {
    var s := OneQueued();
    OneQueuedIsCalm();
    hide LinkedRun, Inv, CalmStart, Enabled, Apply, Leads;
    steps, t := ClaimedAndLoaded(s, 0, 0, 0, 0);
    assert t.jobs.Keys == {0} && t.workers.Keys == {0};
    steps, t := EditedAndReclaimed(s, steps, t, 0, 0, Devices(2), 0, 1);
  }

  /**
   * The convergence claim needs its assumption on reclaimed workers: here all jobs have completed and
   * nobody is running, the row asks for two devices, and the slow worker's last push left the panel at one.
   */
  lemma ReclaimedWorkerCanUndoAPush() returns (s: State, steps: seq<Step>, t: State)
    ensures Inv(s) && CalmStart(s, 0, 0) && LinkedRun(s, steps, t, 0, 0) && Run(s, steps, t)
    ensures Quiescent(t, 0) && t.workers == map[]
    ensures Linked(t, 0, 0) && !Synced(t.panel[0].fields, t.subs[0].fields)
  {
    s := OneQueued();
    OneQueuedIsCalm();
    steps, t := SlowWorkerReclaimed();
    hide LinkedRun, Inv, CalmStart, Leads, OneQueued;
    var first, u := SoloUpdate(t, 1, 0, 0, 0, 2);
    Concat(s, steps, t, first, u, 0, 0);
    var second, v := SoloUpdate(u, 1, 1, 0, 0, 2);
    Concat(s, steps + first, u, second, v, 0, 0);
    Pushes(v, 0, 0, 0);
    var me := v.workers[0];
    steps, t := Extend(s, steps + first + second, v, Advance(0, 0, None),
                       At(v, 0, me.(pc := Verifying(0))).(panel := Pushed(v, 0, me.sub)), 0, 0);
    CrashLeads(t, 0);
    steps, t := Extend(s, steps, t, Crash(0), t.(workers := t.workers - {0}), 0, 0);
    LinkedRunIsRun(s, steps, t, 0, 0);
  }
}
