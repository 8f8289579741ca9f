/** The claim timestamp is a lease: what it fences, over every interleaving. */
module SyncLeases {
  import opened Wrappers
  import opened SyncRows
  import opened SyncMachine
  import opened SyncInvariants

  /** `lease` is never newer than the row's, and strictly past once the row is claimable again. */
  predicate Outlived(row: Job, lease: Millis, now: Millis) {
    && row.startedAt.Some? && lease <= row.startedAt.value
    && (Claimable(row) ==> lease < now)
  }

  ghost predicate LeaseOk(s: State, me: Worker) {
    InRun(me.pc) ==> me.id in s.jobs && Outlived(s.jobs[me.id], me.lease, s.clock)
  }

  predicate Rivals(a: Worker, b: Worker) { InRun(a.pc) && InRun(b.pc) && a.id == b.id }

  ghost predicate LeasesOk(s: State) {
    && (forall w :: w in s.workers ==> LeaseOk(s, s.workers[w]))
    && (forall v, w :: v in s.workers && w in s.workers && v != w && Rivals(s.workers[v], s.workers[w])
                       ==> s.workers[v].lease != s.workers[w].lease)
  }

  /** No rewrite by anyone else revives a lease: the one write that could needs that very lease. */
  lemma OutlivedStays(s: State, step: Step, j: JobId, after: Job, lease: Millis)
    requires j in s.jobs && RowMove(s, step, j, after) && RowOk(s.jobs[j], s.clock)
    requires Outlived(s.jobs[j], lease, s.clock)
    requires step.Advance? && step.w in s.workers && s.workers[step.w].id == j && s.workers[step.w].pc.Thrown?
             ==> s.workers[step.w].lease != lease
    ensures Outlived(after, lease, s.clock)
  {
  }

  lemma OthersLease(s: State, step: Step, w: WorkerId)
    requires RowsOk(s) && LeasesOk(s) && Enabled(s, step) && w in s.workers
    requires !(step.Advance? && step.w == w)
    ensures LeaseOk(Apply(s, step), s.workers[w])
  {
    var me := s.workers[w];
    assert LeaseOk(s, me) && WorkerOk(s, me);
    if InRun(me.pc) {
      JobRows(s, step);
      hide JobsAfter, SubsAfter, WorkersAfter, PanelAfter, HistoryAfter, ProjectionsAfter, CanAdvance, RowMove;
      OutlivedStays(s, step, me.id, JobsAfter(s, step)[me.id], me.lease);
    }
  }

  /** A worker keeps its lease through its run; claiming takes the current time on a claimable row. */
  lemma OwnLease(s: State, me: Worker, newId: nat, found: Option<ProfileId>)
    requires CanAdvance(s, me, newId, found) && LeaseOk(s, me) && NextWorker(s, me, newId, found).Some?
    requires InRun(NextWorker(s, me, newId, found).value.pc)
    ensures var after := NextWorker(s, me, newId, found).value;
      && after.id == me.id && me.id in JobsAdvance(s, me, newId)
      && Outlived(JobsAdvance(s, me, newId)[me.id], after.lease, s.clock)
      && if InRun(me.pc) then after.lease == me.lease else after.lease == s.clock && Claimable(s.jobs[me.id])
  {
  }

  lemma LeasesDiffer(s: State, step: Step, v: WorkerId, w: WorkerId)
    requires LeasesOk(s) && Enabled(s, step) && v in WorkersAfter(s, step) && w in WorkersAfter(s, step) && v != w
    requires Rivals(WorkersAfter(s, step)[v], WorkersAfter(s, step)[w]) && !(step.Advance? && step.w == v)
    ensures WorkersAfter(s, step)[v].lease != WorkersAfter(s, step)[w].lease
  {
    OtherWorkerStands(s, step, v);
    assert LeaseOk(s, s.workers[v]);
    if step.Advance? && step.w == w {
      OwnLease(s, s.workers[w], step.newId, step.found);
      hide JobsAdvance, NextWorker, CanAdvance;
    } else {
      OtherWorkerStands(s, step, w);
      hide WorkersAfter, Enabled;
    }
  }

  lemma OwnLeaseStep(s: State, step: Step)
    requires LeasesOk(s) && Enabled(s, step) && step.Advance? && step.w in WorkersAfter(s, step)
    ensures LeaseOk(Apply(s, step), WorkersAfter(s, step)[step.w])
  {
    OwnNext(s, step);
    hide WorkersAfter, NextWorker, JobsAdvance, CanAdvance;
    if InRun(WorkersAfter(s, step)[step.w].pc) { OwnLease(s, s.workers[step.w], step.newId, step.found); }
  }

  lemma LeaseOkStep(s: State, step: Step, w: WorkerId)
    requires RowsOk(s) && LeasesOk(s) && Enabled(s, step) && w in WorkersAfter(s, step)
    ensures LeaseOk(Apply(s, step), WorkersAfter(s, step)[w])
  {
    if step.Advance? && step.w == w {
      OwnLeaseStep(s, step);
    } else {
      OtherWorker(s, step, w);
      hide WorkersAfter, JobsAfter, Enabled, RowsOk, LeasesOk;
      if w in s.workers { OthersLease(s, step, w); }
    }
  }

  lemma LeasesOkStep(s: State, step: Step)
    requires RowsOk(s) && LeasesOk(s) && Enabled(s, step)
    ensures LeasesOk(Apply(s, step))
  {
    hide WorkersAfter, LeaseOk, Enabled, JobsAfter;
    var after := WorkersAfter(s, step);
    forall w | w in after ensures LeaseOk(Apply(s, step), after[w]) { LeaseOkStep(s, step, w); }
    forall v, w | v in after && w in after && v != w && Rivals(after[v], after[w])
      ensures after[v].lease != after[w].lease
    {
      if step.Advance? && step.w == v { LeasesDiffer(s, step, w, v); } else { LeasesDiffer(s, step, v, w); }
    }
  }

  // ---- what the lease fences ----

  /** A step that takes row `j` from RUNNING to a terminal status. */
  ghost predicate Settles(s: State, step: Step, j: JobId)
    requires Enabled(s, step) && j in s.jobs && j in JobsAfter(s, step)
  {
    s.jobs[j].status.Running? && (JobsAfter(s, step)[j].status.Completed? || JobsAfter(s, step)[j].status.Failed?)
  }

  lemma SettledByHolder(s: State, step: Step, j: JobId, after: Job)
    requires j in s.jobs && RowMove(s, step, j, after) && s.jobs[j].status.Running?
    requires after.status.Completed? || after.status.Failed?
    ensures step.Advance? && step.w in s.workers && s.workers[step.w].id == j && InRun(s.workers[step.w].pc)
    ensures HeldBy(s.jobs[j], s.workers[step.w].lease)
    ensures after.status.Failed? ==> after.recovery.Some? && s.workers[step.w].pc == Thrown(after.recovery.value)
  {
  }

  lemma OneLease(s: State, v: WorkerId, w: WorkerId)
    requires LeasesOk(s) && v in s.workers && w in s.workers && Rivals(s.workers[v], s.workers[w])
    requires s.workers[v].lease == s.workers[w].lease
    ensures v == w
  {
  }

  lemma VerdictRecorded(s: State, step: Step, j: JobId)
    requires Enabled(s, step) && step.Advance? && s.workers[step.w].id == j && s.workers[step.w].pc.Thrown?
    requires j in s.jobs && HeldBy(s.jobs[j], s.workers[step.w].lease)
    ensures Verdict(j, s.workers[step.w].lease, s.workers[step.w].pc.classification) in Apply(s, step).history.verdicts
  {
    hide JobsAfter, SubsAfter, WorkersAfter, PanelAfter, ProjectionsAfter, NextWorker;
  }

  /** Only the holder of the current claim settles a row, and at that moment nobody else holds it. */
  lemma OnlyTheHolderSettles(s: State, step: Step, j: JobId)
    requires RowsOk(s) && LeasesOk(s) && Enabled(s, step) && j in s.jobs
    ensures j in JobsAfter(s, step)
    ensures Settles(s, step, j) ==>
      && step.Advance? && step.w in s.workers
      && s.workers[step.w].id == j && HeldBy(s.jobs[j], s.workers[step.w].lease)
      && (forall v | v in s.workers && s.workers[v].id == j && InRun(s.workers[v].pc)
                     && s.jobs[j].startedAt == Some(s.workers[v].lease) :: v == step.w)
      && (JobsAfter(s, step)[j].status.Failed? ==>
            && s.workers[step.w].pc.Thrown?
            && JobsAfter(s, step)[j].recovery == Some(s.workers[step.w].pc.classification)
            && Verdict(j, s.workers[step.w].lease, s.workers[step.w].pc.classification)
               in Apply(s, step).history.verdicts)
  {
    RowMoves(s, step);
    hide JobsAfter, HistoryAfter, WorkersAfter, Enabled, RowMove, LeasesOk;
    if Settles(s, step, j) {
      SettledByHolder(s, step, j, JobsAfter(s, step)[j]);
      forall v | v in s.workers && s.workers[v].id == j && InRun(s.workers[v].pc)
                 && s.jobs[j].startedAt == Some(s.workers[v].lease) ensures v == step.w {
        OneLease(s, v, step.w);
      }
      if JobsAfter(s, step)[j].status.Failed? { VerdictRecorded(s, step, j); }
    }
  }

  lemma NoMoveOnceSettled(s: State, step: Step, j: JobId, after: Job)
    requires j in s.jobs && RowMove(s, step, j, after)
    requires s.jobs[j].status.Completed? || s.jobs[j].superseded
    ensures after == s.jobs[j]
  {
  }

  /** COMPLETED is final and a superseded row is inert, whoever writes. */
  lemma SettledRowsAreFrozen(s: State, step: Step, j: JobId)
    requires Enabled(s, step) && j in s.jobs
    requires s.jobs[j].status.Completed? || s.jobs[j].superseded
    ensures j in JobsAfter(s, step) && JobsAfter(s, step)[j] == s.jobs[j]
  {
    RowMoves(s, step);
    hide JobsAfter, RowMove, Enabled;
    NoMoveOnceSettled(s, step, j, JobsAfter(s, step)[j]);
  }

  /** An alert is raised only together with the write that leaves the row FAILED and TERMINAL. */
  lemma AlertMeansPersistedTerminal(s: State, step: Step, v: Verdict)
    requires RowsOk(s) && Enabled(s, step)
    requires v in Apply(s, step).history.alerts && v !in s.history.alerts
    ensures v.id in s.jobs && HeldBy(s.jobs[v.id], v.lease)
    ensures v.id in JobsAfter(s, step) && JobsAfter(s, step)[v.id] == FailRow(s.jobs[v.id], Terminal)
  {
    hide SubsAfter, WorkersAfter, PanelAfter, ProjectionsAfter;
  }
}
