/**
 * Quiescent convergence on the unversioned path: once no sync job of a linked
 * subscription is open, the panel holds what the row asks for.
 */
module SyncConvergence {
  import opened Wrappers
  import opened SyncRows
  import opened SyncMachine
  import opened SyncInvariants
  import opened SyncLeases
  import opened SyncRevisions
  import opened SyncLinks
  import opened SyncSafety

  /** The subscription stays linked to one live profile, and the versioned path is off. */
  ghost predicate Linked(s: State, id: SubId, p: ProfileId) {
    && !s.projectionSync && id in s.subs && s.subs[id].link == Some(p) && p in s.panel
  }

  /** No deletion of this subscription, and a worker whose lease is reclaimed is really dead. */
  ghost predicate Benign(s: State, step: Step, id: SubId)
    requires Enabled(s, step)
  {
    && !(step.DeleteSub? && step.sub == id)
    && (step.ReclaimStale? && s.jobs[step.id].subscription == id
        ==> forall w :: w in s.workers ==> !(InRun(s.workers[w].pc) && s.workers[w].id == step.id))
  }

  /** What the convergence claim is about. */
  ghost predicate Admissible(s: State, step: Step, id: SubId, p: ProfileId)
    requires Enabled(s, step)
  {
    Benign(s, step, id) && Linked(Apply(s, step), id, p)
  }

  ghost predicate AdmissibleRun(s: State, steps: seq<Step>, t: State, id: SubId, p: ProfileId)
    decreases |steps|
  {
    if steps == [] then s == t
    else
      && Enabled(s, steps[0]) && Admissible(s, steps[0], id, p)
      && AdmissibleRun(Apply(s, steps[0]), steps[1..], t, id, p)
  }

  predicate PushJob(j: Job, id: SubId) { j.subscription == id && (j.action.Create? || j.action.Update?) }

  predicate OnPushPath(pc: Pc) {
    pc.Reloading? || pc.Patching? || pc.Verifying? || pc.EnsuringDelete? || pc.Finishing? || pc.Thrown?
  }

  predicate OffPushPath(pc: Pc) {
    pc.Resetting? || pc.DeletingPanel? || pc.Retiring? || pc.EnsuringDelete? || pc.Finishing? || pc.Thrown?
  }

  /** Every worker of this subscription saw the link, and only pushers are on the push path. */
  predicate PathOk(me: Worker, id: SubId, p: ProfileId) {
    me.job.subscription == id ==>
      && me.sub.link == Some(p)
      && (BeforeClaim(me.pc) ==> me.pc.Loaded? || me.pc.ReadyToClaim?)
      && (PushJob(me.job, id) && InRun(me.pc) ==> OnPushPath(me.pc))
      && (!PushJob(me.job, id) && InRun(me.pc) ==> OffPushPath(me.pc))
  }

  /** A running pusher still holds the claim on its job. */
  predicate Holds(jobs: map<JobId, Job>, me: Worker, id: SubId) {
    PushJob(me.job, id) && InRun(me.pc) ==> me.id in jobs && HeldBy(jobs[me.id], me.lease)
  }

  ghost predicate HolderOk(s: State, me: Worker, id: SubId, p: ProfileId) {
    PathOk(me, id, p) && Holds(s.jobs, me, id)
  }

  ghost predicate HoldersOk(s: State, id: SubId, p: ProfileId) {
    forall w :: w in s.workers ==> HolderOk(s, s.workers[w], id, p)
  }

  /** The worker has yet to push, or pushed what the panel still holds and has yet to compare. */
  predicate Pushing(panel: Panel, me: Worker, p: ProfileId) {
    || me.pc.Reloading? || me.pc.Patching? || me.pc.Thrown?
    || (me.pc.Verifying? && p in panel && Synced(panel[p].fields, me.sub.fields))
  }

  /** Job `j` guarantees another push: it is queued, failed, abandoned, or its worker is not past its last push. */
  ghost predicate Owes(jobs: map<JobId, Job>, panel: Panel, workers: map<WorkerId, Worker>, j: JobId, id: SubId,
                       p: ProfileId) {
    && j in jobs && PushJob(jobs[j], id) && !jobs[j].superseded && Unfinished(jobs[j])
    && (jobs[j].status.Running? ==>
          forall w :: w in workers && workers[w].id == j && InRun(workers[w].pc) ==> Pushing(panel, workers[w], p))
  }

  ghost predicate Settling(s: State, id: SubId, p: ProfileId) {
    || (id in s.subs && p in s.panel && Synced(s.panel[p].fields, s.subs[id].fields))
    || exists j :: Owes(s.jobs, s.panel, s.workers, j, id, p)
  }

  /** A push makes the panel agree with what was pushed; agreeing means a push would change nothing. */
  lemma SyncedIffPushIsNoop(p: PanelFields, f: Fields)
    ensures Synced(Patch(p, f), f)
    ensures Synced(p, f) <==> Patch(p, f) == p
  {
  }

  /** Only this subscription's workers ever write to its profile. */
  lemma WritersAreMine(s: State, w: WorkerId, id: SubId, p: ProfileId)
    requires RowsOk(s) && LinksOk(s) && Linked(s, id, p) && w in s.workers && s.workers[w].sub.link == Some(p)
    ensures s.workers[w].job.subscription == id
  {
    assert WorkerOk(s, s.workers[w]) && WorkerLinkOk(s.panel, s.minted, s.workers[w]);
    assert Mine(s.panel, s.minted, p, s.subs[id]);
  }

  // ---- running pushers keep their claim ----

  lemma OwnHolder(s: State, me: Worker, newId: nat, found: Option<ProfileId>, id: SubId, p: ProfileId)
    requires CanAdvance(s, me, newId, found) && NextWorker(s, me, newId, found).Some?
    requires WorkerOk(s, me) && HolderOk(s, me, id, p) && Linked(s, id, p)
    ensures PathOk(NextWorker(s, me, newId, found).value, id, p)
    ensures Holds(JobsAdvance(s, me, newId), NextWorker(s, me, newId, found).value, id)
  {
  }

  /** Only the holder, a reclaim and the deletion service take a held row away. */
  lemma HeldRowStays(s: State, step: Step, j: JobId, after: Job, lease: Millis)
    requires j in s.jobs && HeldBy(s.jobs[j], lease) && RowMove(s, step, j, after)
    requires !(step.DeleteSub? && step.sub == s.jobs[j].subscription) && !(step.ReclaimStale? && step.id == j)
    requires step.Advance? && step.w in s.workers && s.workers[step.w].id == j && InRun(s.workers[step.w].pc)
             ==> s.workers[step.w].lease != lease
    ensures HeldBy(after, lease)
  {
  }

  lemma ClaimStaysHeld(s: State, step: Step, w: WorkerId, id: SubId)
    requires RowsOk(s) && LeasesOk(s) && Enabled(s, step) && Benign(s, step, id) && w in s.workers
    requires PushJob(s.workers[w].job, id) && InRun(s.workers[w].pc) && Holds(s.jobs, s.workers[w], id)
    requires !(step.Advance? && step.w == w)
    ensures s.workers[w].id in JobsAfter(s, step) && HeldBy(JobsAfter(s, step)[s.workers[w].id], s.workers[w].lease)
  {
    var me := s.workers[w];
    JobRows(s, step);
    hide JobsAfter, RowMove, CanAdvance;
    assert WorkerOk(s, me);
    if step.Advance? && s.workers[step.w].id == me.id && InRun(s.workers[step.w].pc) {
      assert Rivals(s.workers[step.w], me);
    }
    HeldRowStays(s, step, me.id, JobsAfter(s, step)[me.id], me.lease);
  }

  lemma OtherHolder(s: State, step: Step, w: WorkerId, id: SubId, p: ProfileId)
    requires RowsOk(s) && LeasesOk(s) && HoldersOk(s, id, p)
    requires Linked(s, id, p) && Enabled(s, step) && Benign(s, step, id)
    requires w in WorkersAfter(s, step) && !(step.Advance? && step.w == w)
    ensures PathOk(WorkersAfter(s, step)[w], id, p) && Holds(JobsAfter(s, step), WorkersAfter(s, step)[w], id)
  {
    OtherWorker(s, step, w);
    if w in s.workers {
      assert HolderOk(s, s.workers[w], id, p);
      if PushJob(s.workers[w].job, id) && InRun(s.workers[w].pc) { ClaimStaysHeld(s, step, w, id); }
    }
    hide JobsAfter, WorkersAfter, Enabled, RowsOk, LeasesOk, HoldersOk, NextWorker;
  }

  lemma HoldersOkStep(s: State, step: Step, id: SubId, p: ProfileId)
    requires RowsOk(s) && LeasesOk(s) && HoldersOk(s, id, p)
    requires Linked(s, id, p) && Enabled(s, step) && Benign(s, step, id)
    ensures HoldersOk(Apply(s, step), id, p)
  {
    var t := Apply(s, step);
    forall w | w in t.workers ensures HolderOk(t, t.workers[w], id, p) {
      if step.Advance? && step.w == w {
        assert WorkerOk(s, s.workers[w]) && HolderOk(s, s.workers[w], id, p);
        OwnHolder(s, s.workers[w], step.newId, step.found, id, p);
      } else {
        OtherHolder(s, step, w, id, p);
      }
    }
  }

  lemma SoleRunner(s: State, v: WorkerId, w: WorkerId, id: SubId, p: ProfileId)
    requires RowsOk(s) && LeasesOk(s) && HoldersOk(s, id, p) && v in s.workers && w in s.workers
    requires s.workers[v].id == s.workers[w].id && InRun(s.workers[v].pc) && InRun(s.workers[w].pc)
    requires PushJob(s.workers[v].job, id)
    ensures v == w
  {
    assert HolderOk(s, s.workers[v], id, p) && HolderOk(s, s.workers[w], id, p);
    assert WorkerOk(s, s.workers[v]) && WorkerOk(s, s.workers[w]);
    assert v != w ==> Rivals(s.workers[v], s.workers[w]);
  }

  // ---- one push is always still to come, or the panel agrees ----

  ghost predicate PushesTo(s: State, step: Step, p: ProfileId)
    requires Enabled(s, step)
  {
    step.Advance? && s.workers[step.w].pc.Patching? && s.workers[step.w].sub.link == Some(p)
  }

  lemma PushLands(s: State, step: Step, p: ProfileId)
    requires Enabled(s, step) && p in s.panel && PushesTo(s, step, p)
    ensures JobsAfter(s, step) == s.jobs && p in PanelAfter(s, step) && step.w in WorkersAfter(s, step)
    ensures PanelAfter(s, step)[p].fields == Patch(s.panel[p].fields, s.workers[step.w].sub.fields)
    ensures WorkersAfter(s, step)[step.w] == s.workers[step.w].(pc := Verifying(s.workers[step.w].pc.round))
  {
  }

  /** The pusher is the only one running its job, before and after. */
  lemma SolePusher(s: State, step: Step, id: SubId, p: ProfileId, w: WorkerId)
    requires RowsOk(s) && LeasesOk(s) && HoldersOk(s, id, p) && Linked(s, id, p) && Enabled(s, step)
    requires PushesTo(s, step, p) && PushJob(s.workers[step.w].job, id)
    requires w in WorkersAfter(s, step) && InRun(WorkersAfter(s, step)[w].pc)
    requires WorkersAfter(s, step)[w].id == s.workers[step.w].id
    ensures w == step.w
  {
    if w != step.w {
      OtherWorkerStands(s, step, w);
      hide WorkersAfter, Enabled, RowsOk, LeasesOk, HoldersOk;
      SoleRunner(s, step.w, w, id, p);
    }
  }

  /** After a push the pusher's own job owes the comparison. */
  lemma PushOwes(s: State, step: Step, id: SubId, p: ProfileId)
    requires RowsOk(s) && LeasesOk(s) && LinksOk(s) && HoldersOk(s, id, p) && Linked(s, id, p) && Enabled(s, step)
    requires PushesTo(s, step, p)
    ensures Owes(JobsAfter(s, step), PanelAfter(s, step), WorkersAfter(s, step), s.workers[step.w].id, id, p)
  {
    hide WorkersAfter, PanelAfter, JobsAfter, LeasesOk, LinksOk, HoldersOk;
    hide RowsOk, Synced, Patch, Linked, HeldBy, CanAdvance;
    var me := s.workers[step.w];
    hide Enabled;
    PusherHolds(s, step, id, p);
    PushLands(s, step, p);
    SyncedIffPushIsNoop(s.panel[p].fields, me.sub.fields);
    forall w | w in WorkersAfter(s, step) && WorkersAfter(s, step)[w].id == me.id && InRun(WorkersAfter(s, step)[w].pc)
      ensures w == step.w { SolePusher(s, step, id, p, w); }
  }

  lemma PusherHolds(s: State, step: Step, id: SubId, p: ProfileId)
    requires RowsOk(s) && LinksOk(s) && HoldersOk(s, id, p)
    requires Linked(s, id, p) && Enabled(s, step) && PushesTo(s, step, p)
    ensures p in s.panel && PushJob(s.workers[step.w].job, id) && s.workers[step.w].id in s.jobs
    ensures var row := s.jobs[s.workers[step.w].id]; PushJob(row, id) && !row.superseded && Unfinished(row)
  {
    WritersAreMine(s, step.w, id, p);
    assert HolderOk(s, s.workers[step.w], id, p) && WorkerOk(s, s.workers[step.w]);
    hide RowsOk, LinksOk, HoldersOk, CanAdvance;
  }

  /** Any other step of the job's own worker leaves it owing, or finds the panel in agreement. */
  lemma WorkerKeepsOwing(s: State, me: Worker, newId: nat, found: Option<ProfileId>, id: SubId, p: ProfileId)
    requires CanAdvance(s, me, newId, found) && WorkerOk(s, me) && HolderOk(s, me, id, p) && Linked(s, id, p)
    requires PushJob(me.job, id) && InRun(me.pc) && Pushing(s.panel, me, p) && !me.pc.Patching?
    ensures var after := NextWorker(s, me, newId, found);
      || Synced(s.panel[p].fields, s.subs[id].fields)
      || (after.Some? && Pushing(s.panel, after.value, p))
      || (after.None? && me.id in JobsAdvance(s, me, newId) && JobsAdvance(s, me, newId)[me.id].status.Failed?)
  {
  }

  /** A job that owes is not finished by anyone else. */
  lemma OwingRowStays(s: State, step: Step, j: JobId, id: SubId, p: ProfileId)
    requires RowsOk(s) && HoldersOk(s, id, p) && Linked(s, id, p) && Enabled(s, step) && Benign(s, step, id)
    requires Owes(s.jobs, s.panel, s.workers, j, id, p)
    ensures j in JobsAfter(s, step)
    ensures var row := JobsAfter(s, step)[j]; PushJob(row, id) && !row.superseded && Unfinished(row)
  {
    JobRows(s, step);
    MovedRowOk(s, step, j, JobsAfter(s, step)[j]);
    if step.Advance? { assert WorkerOk(s, s.workers[step.w]) && HolderOk(s, s.workers[step.w], id, p); }
    hide JobsAfter, SubsAfter, WorkersAfter, PanelAfter;
    hide HistoryAfter, ProjectionsAfter, MintedAfter, CanAdvance, NextWorker;
    assert RowMove(s, step, j, JobsAfter(s, step)[j]);
  }

  /** Without a push, the profile's fields stand. */
  lemma OnlyPushesWrite(s: State, step: Step, id: SubId, p: ProfileId)
    requires RowsOk(s) && LinksOk(s) && HoldersOk(s, id, p) && Linked(s, id, p) && Enabled(s, step)
    requires !PushesTo(s, step, p) && p in PanelAfter(s, step)
    ensures PanelAfter(s, step)[p].fields == s.panel[p].fields
  {
    NeverNewInPlace(s, step, p);
    if PanelAfter(s, step)[p].fields != s.panel[p].fields {
      WritersAreMine(s, step.w, id, p);
      assert HolderOk(s, s.workers[step.w], id, p);
      NoStrictWriter(s.workers[step.w], id, p);
    }
    hide PanelAfter, Enabled, RowsOk, HoldersOk, LinksOk, PathOk;
  }

  lemma NoStrictWriter(me: Worker, id: SubId, p: ProfileId)
    requires PathOk(me, id, p) && me.job.subscription == id
    ensures !me.pc.StrictPatching?
  {
  }

  /** A step that rewrites fields in place is a worker's push or strict write to its own link. */
  lemma NeverNewInPlace(s: State, step: Step, p: ProfileId)
    requires PanelOk(s.panel, s.minted) && Enabled(s, step) && p in s.panel && p in PanelAfter(s, step)
    ensures PanelAfter(s, step)[p].fields != s.panel[p].fields ==>
      && step.Advance? && s.workers[step.w].sub.link == Some(p)
      && (s.workers[step.w].pc.Patching? || s.workers[step.w].pc.StrictPatching?)
  {
    hide NextWorker, Owner, Patch, StrictSet;
  }

  lemma OwingWorkersPush(s: State, step: Step, j: JobId, w: WorkerId, id: SubId, p: ProfileId)
    requires RowsOk(s) && LinksOk(s) && HoldersOk(s, id, p) && Linked(s, id, p) && Enabled(s, step)
    requires p in PanelAfter(s, step) && !PushesTo(s, step, p) && Owes(s.jobs, s.panel, s.workers, j, id, p)
    requires w in WorkersAfter(s, step) && WorkersAfter(s, step)[w].id == j && InRun(WorkersAfter(s, step)[w].pc)
    ensures Pushing(PanelAfter(s, step), WorkersAfter(s, step)[w], p) || Synced(s.panel[p].fields, s.subs[id].fields)
  {
    OnlyPushesWrite(s, step, id, p);
    if step.Advance? && step.w == w {
      OwnPushStands(s, step, j, id, p);
    } else {
      OtherWorkerStands(s, step, w);
      hide LinksOk, PanelAfter, WorkersAfter, Enabled;
      assert WorkerOk(s, s.workers[w]) && HolderOk(s, s.workers[w], id, p);
    }
  }

  lemma OwnPushStands(s: State, step: Step, j: JobId, id: SubId, p: ProfileId)
    requires RowsOk(s) && HoldersOk(s, id, p) && Linked(s, id, p) && Enabled(s, step)
    requires p in PanelAfter(s, step) && PanelAfter(s, step)[p].fields == s.panel[p].fields
    requires step.Advance? && !PushesTo(s, step, p) && Owes(s.jobs, s.panel, s.workers, j, id, p)
    requires step.w in WorkersAfter(s, step) && WorkersAfter(s, step)[step.w].id == j
    requires InRun(WorkersAfter(s, step)[step.w].pc)
    ensures Pushing(PanelAfter(s, step), WorkersAfter(s, step)[step.w], p)
            || Synced(s.panel[p].fields, s.subs[id].fields)
  {
    var me := s.workers[step.w];
    assert WorkerOk(s, me) && HolderOk(s, me, id, p);
    MovedWorkerOk(s, me, step.newId, step.found);
    hide RowsOk, HoldersOk, PanelAfter;
    if InRun(me.pc) { WorkerKeepsOwing(s, me, step.newId, step.found, id, p); }
  }

  /** A step that does not push leaves an owing job owing, unless the panel agrees. */
  lemma OwesStep(s: State, step: Step, j: JobId, id: SubId, p: ProfileId)
    requires RowsOk(s) && LinksOk(s) && HoldersOk(s, id, p)
    requires Linked(s, id, p) && Enabled(s, step) && Benign(s, step, id)
    requires p in PanelAfter(s, step) && !PushesTo(s, step, p) && Owes(s.jobs, s.panel, s.workers, j, id, p)
    ensures Owes(JobsAfter(s, step), PanelAfter(s, step), WorkersAfter(s, step), j, id, p)
            || Synced(s.panel[p].fields, s.subs[id].fields)
  {
    OwingRowStays(s, step, j, id, p);
    if !Synced(s.panel[p].fields, s.subs[id].fields) {
      forall w | w in WorkersAfter(s, step) && WorkersAfter(s, step)[w].id == j && InRun(WorkersAfter(s, step)[w].pc)
        ensures Pushing(PanelAfter(s, step), WorkersAfter(s, step)[w], p)
      {
        OwingWorkersPush(s, step, j, w, id, p);
      }
    }
  }

  lemma SettlingStep(s: State, step: Step, id: SubId, p: ProfileId)
    requires RowsOk(s) && LeasesOk(s) && LinksOk(s) && HoldersOk(s, id, p) && Linked(s, id, p)
    requires Enabled(s, step) && Admissible(s, step, id, p) && Settling(s, id, p)
    ensures Settling(Apply(s, step), id, p)
  {
    var t := Apply(s, step);
    assert p in t.panel;
    if step.Edit? && step.sub == id {
      EditOwes(s, step, id, p);
    } else if PushesTo(s, step, p) {
      PushOwes(s, step, id, p);
    } else {
      OnlyPushesWrite(s, step, id, p);
      SubsKeepFields(s, step, id);
      if !Synced(s.panel[p].fields, s.subs[id].fields) {
        var j :| Owes(s.jobs, s.panel, s.workers, j, id, p);
        OwesStep(s, step, j, id, p);
      }
    }
  }

  /** An edit queues the job that will push it. */
  lemma EditOwes(s: State, step: Step, id: SubId, p: ProfileId)
    requires RowsOk(s) && Enabled(s, step) && step.Edit? && step.sub == id
    ensures Owes(JobsAfter(s, step), PanelAfter(s, step), WorkersAfter(s, step), step.newJob, id, p)
  {
  }

  lemma SubsKeepFields(s: State, step: Step, id: SubId)
    requires Enabled(s, step) && id in s.subs && !(step.Edit? && step.sub == id)
    ensures id in SubsAfter(s, step) && SubsAfter(s, step)[id].fields == s.subs[id].fields
  {
  }

  // ---- the theorem ----

  /** Nobody is working for the subscription, and whatever the panel lacks is queued. */
  ghost predicate CalmStart(s: State, id: SubId, p: ProfileId) {
    && Linked(s, id, p) && Settling(s, id, p)
    && forall w :: w in s.workers ==> s.workers[w].job.subscription != id
  }

  /** No CREATE or UPDATE of the subscription is PENDING, RUNNING or FAILED. */
  ghost predicate Quiescent(s: State, id: SubId) {
    forall j :: j in s.jobs && PushJob(s.jobs[j], id) && !s.jobs[j].superseded ==> !Unfinished(s.jobs[j])
  }

  lemma {:induction false} SettlingRun(s: State, steps: seq<Step>, t: State, id: SubId, p: ProfileId)
    requires Inv(s) && HoldersOk(s, id, p) && Linked(s, id, p) && Settling(s, id, p)
    requires AdmissibleRun(s, steps, t, id, p)
    ensures Settling(t, id, p) && Linked(t, id, p)
    decreases |steps|
  {
    if steps != [] {
      InvStep(s, steps[0]);
      HoldersOkStep(s, steps[0], id, p);
      SettlingStep(s, steps[0], id, p);
      SettlingRun(Apply(s, steps[0]), steps[1..], t, id, p);
    }
  }

  /**
   * Over all interleavings of workers, edits, failures, crashes and sweeps: when the
   * last sync job has completed, the panel holds every field the row has an opinion on.
   */
  lemma QuiescentConvergence(s: State, steps: seq<Step>, t: State, id: SubId, p: ProfileId)
    requires Inv(s) && CalmStart(s, id, p) && AdmissibleRun(s, steps, t, id, p)
    ensures Quiescent(t, id) ==> Linked(t, id, p) && Synced(t.panel[p].fields, t.subs[id].fields)
  {
    HoldersAtStart(s, id, p);
    hide *;
    SettlingRun(s, steps, t, id, p);
    if Quiescent(t, id) { SettledWhenQuiet(t, id, p); }
  }

  lemma HoldersAtStart(s: State, id: SubId, p: ProfileId)
    requires CalmStart(s, id, p)
    ensures HoldersOk(s, id, p) && Linked(s, id, p) && Settling(s, id, p)
  {
    hide Settling, Linked;
  }

  lemma SettledWhenQuiet(s: State, id: SubId, p: ProfileId)
    requires Settling(s, id, p) && Quiescent(s, id)
    ensures id in s.subs && p in s.panel && Synced(s.panel[p].fields, s.subs[id].fields)
  {
    hide Synced;
  }
}
