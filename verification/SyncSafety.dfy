/** The guarantees of the protocol, in every reachable state of every run. */
module SyncSafety {
  import opened Wrappers
  import opened SyncRows
  import Naming
  import OwnerMarker
  import opened SyncMachine
  import opened SyncInvariants
  import opened SyncLeases
  import opened SyncRevisions
  import opened SyncLinks

  ghost predicate Inv(s: State) {
    RowsOk(s) && LeasesOk(s) && RevisionsOk(s) && LinksOk(s) && NoOrphan(s)
  }

  ghost predicate Reachable(t: State) { exists s, steps :: Init(s) && Run(s, steps, t) }

  lemma InvStep(s: State, step: Step)
    requires Inv(s) && Enabled(s, step)
    ensures Inv(Apply(s, step))
  {
    RowsOkStep(s, step);
    LeasesOkStep(s, step);
    RevisionsOkStep(s, step);
    LinksOkStep(s, step);
    NoOrphanStep(s, step);
  }

  lemma {:induction false} InvRun(s: State, steps: seq<Step>, t: State)
    requires Inv(s) && Run(s, steps, t)
    ensures Inv(t)
    decreases |steps|
  {
    if steps != [] {
      InvStep(s, steps[0]);
      InvRun(Apply(s, steps[0]), steps[1..], t);
    }
  }

  lemma ReachableInv(t: State)
    requires Reachable(t)
    ensures Inv(t)
  {
    var s, steps :| Init(s) && Run(s, steps, t);
    InvRun(s, steps, t);
  }

  /** A profile left on the panel by a deleted subscription always has a DELETE of exactly it still to run. */
  lemma NoLiveOrphan(t: State, id: SubId)
    requires Reachable(t) && id in t.subs && t.subs[id].status.Deleted? && t.subs[id].link.Some?
    requires t.subs[id].link.value in t.panel
    ensures exists j :: j in t.jobs && OpenDelete(t.jobs[j], id, t.subs[id].link.value) && !t.jobs[j].superseded
  {
    ReachableInv(t);
    var j :| j in t.jobs && OpenDelete(t.jobs[j], id, t.subs[id].link.value);
    assert RowOk(t.jobs[j], t.clock);
  }

  /** A linked profile on the panel carries the subscription's own name and its own user's marker. */
  lemma NeverCrossLinked(t: State, id: SubId)
    requires Reachable(t) && id in t.subs && t.subs[id].link.Some? && t.subs[id].link.value in t.panel
    ensures Owner(t.panel[t.subs[id].link.value]) == Some(t.subs[id].user)
    ensures t.panel[t.subs[id].link.value].username == t.subs[id].name
    ensures forall other :: other in t.subs && t.subs[other].link == t.subs[id].link ==> other == id
  {
    ReachableInv(t);
    assert Mine(t.panel, t.minted, t.subs[id].link.value, t.subs[id]);
    forall other | other in t.subs && t.subs[other].link == t.subs[id].link ensures other == id {
      assert Mine(t.panel, t.minted, t.subs[id].link.value, t.subs[other]);
    }
  }

  /** At most one running worker holds the claim on a row, and FAILED rows say why they failed. */
  lemma OneHolderPerJob(t: State, v: WorkerId, w: WorkerId)
    requires Reachable(t) && v in t.workers && w in t.workers && t.workers[v].id == t.workers[w].id
    requires InRun(t.workers[v].pc) && InRun(t.workers[w].pc) && t.workers[v].id in t.jobs
    requires HeldBy(t.jobs[t.workers[v].id], t.workers[v].lease) && HeldBy(t.jobs[t.workers[w].id], t.workers[w].lease)
    ensures v == w
  {
    ReachableInv(t);
    assert v != w ==> Rivals(t.workers[v], t.workers[w]);
  }

  lemma RowsTellTheTruth(t: State, j: JobId)
    requires Reachable(t) && j in t.jobs
    ensures t.jobs[j].status.Failed? ==> t.jobs[j].recovery.Some?
    ensures t.jobs[j].superseded ==>
      (t.jobs[j].status.Completed? <==> t.jobs[j].cause.Some? && t.jobs[j].cause.value.Superseded?)
    ensures t.jobs[j].cause == Some(Superseded(ByRevision)) ==>
      IsVersioned(t.jobs[j]) && Outdated(t.projections, t.jobs[j].subscription, t.jobs[j].desiredRevision.value)
  {
    ReachableInv(t);
    assert RowOk(t.jobs[j], t.clock) && JobRevisionOk(t.projections, t.jobs[j]);
  }

  // ---- superseded and COMPLETED ----

  predicate SupersededAreDone(jobs: map<JobId, Job>) {
    forall j :: j in jobs && jobs[j].superseded ==> jobs[j].status.Completed?
  }

  /** A deletion that finds a job of the subscription, other than a DELETE, still to run. */
  ghost predicate RetiresUnfinished(s: State, step: Step) {
    step.DeleteSub? && exists j :: j in s.jobs && OpenJob(s.jobs[j], step.sub)
  }

  predicate OpenJob(j: Job, sub: SubId) {
    j.subscription == sub && !j.action.Delete? && Unfinished(j) && !j.superseded
  }

  ghost predicate NeverRetires(s: State, steps: seq<Step>)
    decreases |steps|
  {
    steps == []
    || (Enabled(s, steps[0]) && !RetiresUnfinished(s, steps[0]) && NeverRetires(Apply(s, steps[0]), steps[1..]))
  }

  lemma RetiredStaysPending(s: State, step: Step, j: JobId)
    requires Enabled(s, step) && step.DeleteSub? && j in s.jobs && OpenJob(s.jobs[j], step.sub)
    ensures j in JobsAfter(s, step) && JobsAfter(s, step)[j] == s.jobs[j].(superseded := true)
  {
  }

  lemma NewRowsAreNotSuperseded(s: State, step: Step, j: JobId)
    requires Enabled(s, step) && j in JobsAfter(s, step) && j !in s.jobs
    ensures !JobsAfter(s, step)[j].superseded
  {
    NewRows(s, step);
    hide JobsAfter, Enabled;
  }

  lemma DoneStep(s: State, step: Step)
    requires RowsOk(s) && Enabled(s, step)
    ensures SupersededAreDone(JobsAfter(s, step)) <==> SupersededAreDone(s.jobs) && !RetiresUnfinished(s, step)
  {
    var after := JobsAfter(s, step);
    forall j | j in s.jobs
      ensures j in after
      ensures s.jobs[j].superseded ==> after[j] == s.jobs[j]
      ensures !s.jobs[j].superseded && after[j].superseded ==>
        (after[j].status.Completed? <==> !step.DeleteSub?) && (step.DeleteSub? ==> OpenJob(s.jobs[j], step.sub))
      ensures step.DeleteSub? && OpenJob(s.jobs[j], step.sub) ==> after[j] == s.jobs[j].(superseded := true)
    {
      if s.jobs[j].superseded { SettledRowsAreFrozen(s, step, j); } else { WhoSupersedes(s, step, j); }
      if step.DeleteSub? && OpenJob(s.jobs[j], step.sub) { RetiredStaysPending(s, step, j); }
    }
    forall j | j in after && j !in s.jobs ensures !after[j].superseded { NewRowsAreNotSuperseded(s, step, j); }
    hide JobsAfter, Enabled, RowsOk;
  }

  /** Along a run, superseded rows are all COMPLETED if and only if no deletion ever met an open job. */
  lemma {:induction false} SupersededDoneIffNeverRetired(s: State, steps: seq<Step>, t: State)
    requires Inv(s) && Run(s, steps, t)
    ensures SupersededAreDone(t.jobs) <==> SupersededAreDone(s.jobs) && NeverRetires(s, steps)
    decreases |steps|
  {
    if steps != [] {
      InvStep(s, steps[0]);
      DoneStep(s, steps[0]);
      SupersededDoneIffNeverRetired(Apply(s, steps[0]), steps[1..], t);
      hide SupersededAreDone, RetiresUnfinished, Inv, Enabled;
    }
  }

  lemma PutLeads(s: State, account: Naming.User)
    requires OwnerMarker.IsId(account.id) && OwnerMarker.Legible(account)
    ensures Enabled(s, PutUser(account)) && Apply(s, PutUser(account)) == s.(users := s.users[account.id := account])
  {
  }

  lemma AddLeads(s: State, id: SubId, user: UserId, name: string, fields: Fields)
    requires s.subs == map[] && user in s.users
    ensures Enabled(s, AddSub(id, user, name, fields))
    ensures Apply(s, AddSub(id, user, name, fields)) == s.(subs := map[id := Sub(user, name, None, Active, fields)])
  {
  }

  lemma EnqueueLeads(s: State, id: SubId, action: Action, cause: Option<string>, j: JobId)
    requires id in s.subs && j !in s.jobs && !action.Delete?
    ensures Enabled(s, Enqueue(id, action, None, cause, j))
    ensures Apply(s, Enqueue(id, action, None, cause, j))
         == s.(jobs := s.jobs[j := NewJob(id, action, None, None, cause, s.clock)])
  {
  }

  lemma DeleteUnlinkedLeads(s: State, id: SubId, j: JobId)
    requires id in s.subs && !s.subs[id].status.Deleted? && s.subs[id].link.None? && j !in s.jobs
    ensures Enabled(s, DeleteSub(id, j))
    ensures Apply(s, DeleteSub(id, j))
         == s.(subs := s.subs[id := s.subs[id].(status := Deleted)], jobs := RetireJobs(s.jobs, id))
  {
  }

  /** Such a run: a queued term activation whose subscription is then deleted stays PENDING, and keeps its cause. */
  lemma SupersededYetPending() returns (steps: seq<Step>, t: State)
    ensures exists s :: Init(s) && Run(s, steps, t)
    ensures 0 in t.jobs && t.jobs[0].superseded && t.jobs[0].status.Pending?
    ensures t.jobs[0].cause == Some(Origin("TERM_ACTIVATION"))
  {
    var s := State(0, false, map[], map[], map[], map[], map[], {}, map[], History(map[], {}, {}, {}));
    var ann, fields := Naming.User("ann", None, None, None, None), Fields(None, None, [], None, None, None, None);
    assert Init(s);
    AnnIsLegible();
    hide Enabled, Apply, Run, Init, OwnerMarker.Legible, OwnerMarker.IsId;
    var put, add := PutUser(ann), AddSub(0, "ann", "rz_ann_sub", fields);
    var enqueue, delete := Enqueue(0, Update, None, Some("TERM_ACTIVATION"), 0), DeleteSub(0, 1);
    PutLeads(s, ann);
    AddLeads(Apply(s, put), 0, "ann", "rz_ann_sub", fields);
    EnqueueLeads(Apply(Apply(s, put), add), 0, Update, Some("TERM_ACTIVATION"), 0);
    DeleteUnlinkedLeads(Apply(Apply(Apply(s, put), add), enqueue), 0, 1);
    t := Apply(Apply(Apply(Apply(s, put), add), enqueue), delete);
    steps := [put, add, enqueue, delete];
    RunOfFour(s, put, add, enqueue, delete);
  }

  lemma AnnIsLegible()
    ensures var ann := Naming.User("ann", None, None, None, None);
      OwnerMarker.IsId(ann.id) && OwnerMarker.Legible(ann)
  {
  }

  lemma RunOfFour(s: State, a: Step, b: Step, c: Step, d: Step)
    requires Enabled(s, a) && Enabled(Apply(s, a), b) && Enabled(Apply(Apply(s, a), b), c)
    requires Enabled(Apply(Apply(Apply(s, a), b), c), d)
    ensures Run(s, [a, b, c, d], Apply(Apply(Apply(Apply(s, a), b), c), d))
  {
    hide Enabled, Apply;
    var s1 := Apply(s, a);
    var s2 := Apply(s1, b);
    var s3 := Apply(s2, c);
    var t := Apply(s3, d);
    assert [a, b, c, d][1..] == [b, c, d] && [b, c, d][1..] == [c, d] && [c, d][1..] == [d] && [d][1..] == [];
    assert Run(t, [], t);
    assert Run(s3, [d], t);
    assert Run(s2, [c, d], t);
    assert Run(s1, [b, c, d], t);
  }

  /** An applied revision is never ahead of the desired one, and the panel was read back with exactly its limits. */
  lemma AppliedRevisionsWereConfirmed(t: State, id: SubId)
    requires Reachable(t) && id in t.projections && t.projections[id].lastApplied.Some?
    ensures var r := t.projections[id].lastApplied.value;
      && r <= t.projections[id].desiredRevision && (id, r) in t.history.desiredAt
      && ReadBack(id, r, t.history.desiredAt[(id, r)]) in t.history.readBacks
  {
    ReachableInv(t);
    assert ProjectionOk(t.history, id, t.projections[id]);
  }

  /** Along any run the applied revision of a projection never goes back. */
  lemma {:induction false} AppliedRevisionsOnlyGrow(s: State, steps: seq<Step>, t: State)
    requires Inv(s) && Run(s, steps, t)
    ensures Grown(s.projections, t.projections)
    decreases |steps|
  {
    if steps != [] {
      InvStep(s, steps[0]);
      ProjectionsGrow(s, steps[0]);
      AppliedRevisionsOnlyGrow(Apply(s, steps[0]), steps[1..], t);
    }
  }
}
