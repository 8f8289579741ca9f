/** Versioned jobs: who may be superseded, and what an applied revision proves. */
module SyncRevisions {
  import opened Wrappers
  import opened SyncRows
  import opened SyncMachine
  import opened SyncInvariants

  predicate JobRevisionOk(projections: map<SubId, Projection>, j: Job) {
    IsVersioned(j) ==>
      && j.aggregateKey.value in projections
      && j.desiredRevision.value <= projections[j.aggregateKey.value].desiredRevision
      && (j.cause == Some(Superseded(ByRevision)) ==>
            Outdated(projections, j.aggregateKey.value, j.desiredRevision.value))
  }

  /** `revision` was desired at some time, with exactly these limits. */
  predicate Desired(h: History, sub: SubId, revision: nat, limits: Limits) {
    (sub, revision) in h.desiredAt && h.desiredAt[(sub, revision)] == limits
  }

  /** The panel was once read back with exactly what `revision` desires. */
  predicate Confirmed(h: History, sub: SubId, revision: nat) {
    (sub, revision) in h.desiredAt && ReadBack(sub, revision, h.desiredAt[(sub, revision)]) in h.readBacks
  }

  predicate ProjectionOk(h: History, sub: SubId, p: Projection) {
    && Desired(h, sub, p.desiredRevision, p.desired)
    && (p.lastApplied.Some? ==> p.lastApplied.value <= p.desiredRevision && Confirmed(h, sub, p.lastApplied.value))
  }

  predicate WorkerRevisionOk(projections: map<SubId, Projection>, h: History, me: Worker) {
    var sub := me.job.subscription;
    match me.pc
    case Superseding(ByRevision) =>
      && IsVersioned(me.job) && Outdated(projections, me.job.aggregateKey.value, me.job.desiredRevision.value)
    case StrictPatching(r, limits) => Desired(h, sub, r, limits)
    case StrictReading(r, limits) => Desired(h, sub, r, limits)
    case StrictCommitting(r) => Confirmed(h, sub, r)
    case _ => true
  }

  ghost predicate RevisionsOk(s: State) {
    && (forall j :: j in s.jobs ==> JobRevisionOk(s.projections, s.jobs[j]))
    && (forall id :: id in s.projections ==> ProjectionOk(s.history, id, s.projections[id]))
    && (forall key :: key in s.history.desiredAt ==>
          key.0 in s.projections && key.1 <= s.projections[key.0].desiredRevision)
    && (forall w :: w in s.workers ==> WorkerRevisionOk(s.projections, s.history, s.workers[w]))
  }

  /** Revisions and applied revisions only grow. */
  predicate Grown(before: map<SubId, Projection>, after: map<SubId, Projection>) {
    forall id :: id in before ==>
      && id in after && before[id].desiredRevision <= after[id].desiredRevision
      && (before[id].lastApplied.Some? ==>
            after[id].lastApplied.Some? && before[id].lastApplied.value <= after[id].lastApplied.value)
  }

  /** History is only appended to. */
  predicate Extended(before: History, after: History) {
    && before.readBacks <= after.readBacks
    && forall key :: key in before.desiredAt ==> key in after.desiredAt && after.desiredAt[key] == before.desiredAt[key]
  }

  lemma ProjectionsGrow(s: State, step: Step)
    requires RevisionsOk(s) && Enabled(s, step)
    ensures Grown(s.projections, ProjectionsAfter(s, step))
  {
    if step.Advance? && s.workers[step.w].job.subscription in s.projections {
      var id := s.workers[step.w].job.subscription;
      assert ProjectionOk(s.history, id, s.projections[id]);
    }
  }

  lemma HistoryExtends(s: State, step: Step)
    requires RevisionsOk(s) && Enabled(s, step)
    ensures Extended(s.history, HistoryAfter(s, step))
  {
  }

  lemma DesiredStays(s: State, step: Step)
    requires RevisionsOk(s) && Enabled(s, step)
    ensures forall key :: key in HistoryAfter(s, step).desiredAt ==>
      key.0 in ProjectionsAfter(s, step) && key.1 <= ProjectionsAfter(s, step)[key.0].desiredRevision
  {
    ProjectionsGrow(s, step);
  }

  lemma ProjectionStep(s: State, step: Step, id: SubId)
    requires RevisionsOk(s) && Enabled(s, step) && id in ProjectionsAfter(s, step)
    ensures ProjectionOk(HistoryAfter(s, step), id, ProjectionsAfter(s, step)[id])
  {
    HistoryExtends(s, step);
    if id in s.projections { assert ProjectionOk(s.history, id, s.projections[id]); }
    if step.Advance? { assert WorkerRevisionOk(s.projections, s.history, s.workers[step.w]); }
  }

  lemma MovedRevisionOk(s: State, me: Worker, newId: nat, found: Option<ProfileId>, h: History)
    requires CanAdvance(s, me, newId, found) && NextWorker(s, me, newId, found).Some?
    requires WorkerRevisionOk(s.projections, s.history, me) && Extended(s.history, h)
    requires forall id :: id in s.projections ==> ProjectionOk(s.history, id, s.projections[id])
    requires me.pc.StrictReading? ==>
      ReadBack(me.job.subscription, me.pc.revision, StrictRead(s.panel[me.sub.link.value].fields)) in h.readBacks
    ensures WorkerRevisionOk(s.projections, h, NextWorker(s, me, newId, found).value)
  {
  }

  lemma RevisionStays(p: map<SubId, Projection>, q: map<SubId, Projection>, h: History, k: History, me: Worker)
    requires Grown(p, q) && Extended(h, k) && WorkerRevisionOk(p, h, me)
    ensures WorkerRevisionOk(q, k, me)
  {
  }

  lemma WorkerRevisionStep(s: State, step: Step, w: WorkerId)
    requires RevisionsOk(s) && Enabled(s, step) && w in WorkersAfter(s, step)
    ensures WorkerRevisionOk(ProjectionsAfter(s, step), HistoryAfter(s, step), WorkersAfter(s, step)[w])
  {
    ProjectionsGrow(s, step);
    HistoryExtends(s, step);
    var after := WorkersAfter(s, step)[w];
    if step.Advance? && step.w == w { MovedRevisionOk(s, s.workers[w], step.newId, step.found, HistoryAfter(s, step)); }
    else { assert WorkerRevisionOk(s.projections, s.history, after); }
    hide ProjectionsAfter, HistoryAfter, JobsAfter, SubsAfter, PanelAfter, WorkersAfter, CanAdvance;
    RevisionStays(s.projections, ProjectionsAfter(s, step),
                  if step.Advance? && step.w == w then HistoryAfter(s, step) else s.history,
                  HistoryAfter(s, step), after);
  }

  lemma MovedJobRevision(s: State, step: Step, j: JobId, after: Job)
    requires RowsOk(s) && RevisionsOk(s) && j in s.jobs && RowMove(s, step, j, after)
    ensures JobRevisionOk(s.projections, after)
  {
    assert JobRevisionOk(s.projections, s.jobs[j]) && RowOk(s.jobs[j], s.clock);
    if step.Advance? && step.w in s.workers {
      var me := s.workers[step.w];
      assert WorkerOk(s, me) && WorkerRevisionOk(s.projections, s.history, me);
      assert JobRevisionOk(s.projections, s.jobs[me.id]);
    }
  }

  lemma JobRevisionStep(s: State, step: Step, j: JobId)
    requires RowsOk(s) && RevisionsOk(s) && Enabled(s, step) && j in JobsAfter(s, step)
    ensures JobRevisionOk(ProjectionsAfter(s, step), JobsAfter(s, step)[j])
  {
    ProjectionsGrow(s, step);
    JobRows(s, step);
    if j in s.jobs { MovedJobRevision(s, step, j, JobsAfter(s, step)[j]); }
  }

  lemma RevisionsOkStep(s: State, step: Step)
    requires RowsOk(s) && RevisionsOk(s) && Enabled(s, step)
    ensures RevisionsOk(Apply(s, step))
  {
    var t := Apply(s, step);
    forall j | j in t.jobs ensures JobRevisionOk(t.projections, t.jobs[j]) { JobRevisionStep(s, step, j); }
    forall id | id in t.projections ensures ProjectionOk(t.history, id, t.projections[id]) {
      ProjectionStep(s, step, id);
    }
    forall w | w in t.workers ensures WorkerRevisionOk(t.projections, t.history, t.workers[w]) {
      WorkerRevisionStep(s, step, w);
    }
    DesiredStays(s, step);
  }

  /**
   * The cause SUPERSEDED_BY_REVISION is only ever written on a versioned row that the
   * projection has left strictly behind, so never on the newest revision.
   */
  lemma SupersededOnlyWhenOutdated(s: State, step: Step, j: JobId)
    requires RowsOk(s) && RevisionsOk(s) && Enabled(s, step) && j in s.jobs
    ensures j in JobsAfter(s, step)
    ensures JobsAfter(s, step)[j].cause == Some(Superseded(ByRevision)) ==>
      IsVersioned(s.jobs[j]) && Outdated(s.projections, s.jobs[j].subscription, s.jobs[j].desiredRevision.value)
    ensures JobsAfter(s, step)[j].cause != s.jobs[j].cause ==>
      Claimable(s.jobs[j]) && IsVersioned(s.jobs[j]) && JobsAfter(s, step)[j].superseded
  {
    RowMoves(s, step);
    var after := JobsAfter(s, step)[j];
    hide JobsAfter, Enabled;
    MovedRowOk(s, step, j, after);
    MovedJobRevision(s, step, j, after);
    if after.cause != s.jobs[j].cause { CauseMoves(s, step, j, after); }
    assert RowOk(s.jobs[j], s.clock);
    hide RowMove, RowsOk, RevisionsOk;
  }

  lemma WorkerSupersedes(s: State, me: Worker, j: JobId, after: Job)
    requires WorkerOk(s, me) && j in s.jobs && WorkerMove(s, me, j, after)
    requires after.cause != s.jobs[j].cause || after.superseded != s.jobs[j].superseded
    ensures Claimable(s.jobs[j]) && IsVersioned(s.jobs[j]) && after.superseded && after.status.Completed?
  {
  }

  lemma CauseMoves(s: State, step: Step, j: JobId, after: Job)
    requires RowsOk(s) && j in s.jobs && RowMove(s, step, j, after) && after.cause != s.jobs[j].cause
    ensures Claimable(s.jobs[j]) && IsVersioned(s.jobs[j]) && after.superseded
  {
    if step.Advance? && step.w in s.workers && WorkerMove(s, s.workers[step.w], j, after) {
      assert WorkerOk(s, s.workers[step.w]);
      WorkerSupersedes(s, s.workers[step.w], j, after);
    }
    hide RowsOk, WorkerMove, WorkerOk;
  }

  lemma SupersedingMove(s: State, step: Step, j: JobId, after: Job)
    requires RowsOk(s) && j in s.jobs && RowMove(s, step, j, after) && !s.jobs[j].superseded && after.superseded
    ensures after.status.Completed? <==> !step.DeleteSub?
    ensures !s.jobs[j].action.Delete?
    ensures step.DeleteSub? ==> step.sub == s.jobs[j].subscription && Unfinished(s.jobs[j])
    ensures !IsVersioned(s.jobs[j]) ==> step.DeleteSub?
  {
    assert RowOk(s.jobs[j], s.clock);
    if step.Advance? && step.w in s.workers && WorkerMove(s, s.workers[step.w], j, after) {
      assert WorkerOk(s, s.workers[step.w]);
      WorkerSupersedes(s, s.workers[step.w], j, after);
    }
    hide RowsOk, WorkerMove, WorkerOk;
  }

  /**
   * A row that a step supersedes ends COMPLETED exactly when the step is not the deletion of
   * its subscription; nothing else ever supersedes an unversioned row, and nothing a DELETE.
   */
  lemma WhoSupersedes(s: State, step: Step, j: JobId)
    requires RowsOk(s) && Enabled(s, step) && j in s.jobs && !s.jobs[j].superseded
    ensures j in JobsAfter(s, step)
    ensures JobsAfter(s, step)[j].superseded ==>
      && (JobsAfter(s, step)[j].status.Completed? <==> !step.DeleteSub?)
      && !s.jobs[j].action.Delete? && (step.DeleteSub? ==> step.sub == s.jobs[j].subscription && Unfinished(s.jobs[j]))
      && (!IsVersioned(s.jobs[j]) ==> step.DeleteSub?)
  {
    RowMoves(s, step);
    hide JobsAfter, RowMove, Enabled;
    if JobsAfter(s, step)[j].superseded { SupersedingMove(s, step, j, JobsAfter(s, step)[j]); }
  }
}
