/** What single steps do to rows and workers, and the facts every reachable state keeps. */
module SyncInvariants {
  import opened Wrappers
  import opened SyncRows
  import opened SyncMachine

  /** Every way a step may rewrite an existing job row, with what the writer must hold. */
  ghost predicate RowMove(s: State, step: Step, j: JobId, after: Job)
    requires j in s.jobs
  {
    var row := s.jobs[j];
    || after == row
    || (step.DeleteSub? && step.sub == row.subscription && after == RetireRow(row))
    || (step.RecoverFailed? && step.id == j && Recoverable(row, step.legacy) && after == RecoverRow(row))
    || (step.RetryFailed? && step.id == j && row.status.Failed? && !row.superseded && after == RecoverRow(row))
    || (step.ReclaimStale? && step.id == j && StaleLease(row, s.clock) && after == ReclaimRow(row))
    || (step.Advance? && step.w in s.workers && WorkerMove(s, s.workers[step.w], j, after))
  }

  ghost predicate WorkerMove(s: State, me: Worker, j: JobId, after: Job)
    requires j in s.jobs
  {
    var row := s.jobs[j];
    match me.pc
    case ReadyToClaim => me.id == j && Claimable(row) && after == ClaimRow(row, s.clock)
    case Superseding(reason) => me.id == j && Claimable(row) && after == SupersedeRow(row, reason)
    case Finishing => me.id == j && HeldBy(row, me.lease) && after == CompleteRow(row)
    case Thrown(c) => me.id == j && HeldBy(row, me.lease) && after == FailRow(row, c)
    case Sibling =>
      && s.projectionSync && IsVersioned(me.job)
      && OlderSibling(row, me.job.aggregateKey.value, me.job.desiredRevision.value)
      && after == SupersedeRow(row, ByRevision)
    case _ => false
  }

  /** New rows start PENDING; a step adds at most one, a DELETE always unversioned and targeted. */
  predicate FreshRow(j: Job) {
    && j.status.Pending? && !j.superseded && j.startedAt.None? && j.recovery.None?
    && (j.cause.None? || j.cause.value.Origin?)
    && (j.action.Delete? ==> j.target.Some? && !IsVersioned(j))
    && (j.aggregateKey.Some? ==> j.aggregateKey.value == j.subscription)
  }

  lemma RowMoves(s: State, step: Step)
    requires Enabled(s, step)
    ensures forall j :: j in s.jobs ==> j in JobsAfter(s, step) && RowMove(s, step, j, JobsAfter(s, step)[j])
  {
  }

  lemma NewRows(s: State, step: Step)
    requires Enabled(s, step)
    ensures forall j :: j in JobsAfter(s, step) && j !in s.jobs ==>
      FreshRow(JobsAfter(s, step)[j]) && (RowsOk(s) ==> JobsAfter(s, step)[j].subscription in s.subs)
  {
  }

  /** The existing rows moved legally and the new ones are fresh. */
  lemma JobRows(s: State, step: Step)
    requires Enabled(s, step)
    ensures forall j :: j in s.jobs ==> j in JobsAfter(s, step) && RowMove(s, step, j, JobsAfter(s, step)[j])
    ensures forall j :: j in JobsAfter(s, step) && j !in s.jobs ==>
      FreshRow(JobsAfter(s, step)[j]) && (RowsOk(s) ==> JobsAfter(s, step)[j].subscription in s.subs)
  {
    RowMoves(s, step);
    NewRows(s, step);
    hide *;
  }

  lemma OwnNext(s: State, step: Step)
    requires Enabled(s, step) && step.Advance? && step.w in WorkersAfter(s, step)
    ensures NextWorker(s, s.workers[step.w], step.newId, step.found) == Some(WorkersAfter(s, step)[step.w])
  {
    hide NextWorker, CanAdvance;
  }

  /** A step of someone else leaves a worker alone, makes a running one throw, or starts a new one. */
  lemma OtherWorker(s: State, step: Step, w: WorkerId)
    requires Enabled(s, step) && w in WorkersAfter(s, step) && !(step.Advance? && step.w == w)
    ensures var after := WorkersAfter(s, step)[w];
      if w in s.workers then
        || after == s.workers[w]
        || (after.pc.Thrown? && InRun(s.workers[w].pc) && after == s.workers[w].(pc := after.pc))
      else step.Start? && step.id in s.jobs && s.jobs[step.id].subscription in s.subs
           && after == Worker(step.id, s.jobs[step.id], s.subs[s.jobs[step.id].subscription], 0, Loaded)
  {
    hide NextWorker, CanAdvance;
  }

  /** So a worker that is running after it was running before, with the same snapshot and lease. */
  lemma OtherWorkerStands(s: State, step: Step, w: WorkerId)
    requires Enabled(s, step) && w in WorkersAfter(s, step) && InRun(WorkersAfter(s, step)[w].pc)
    requires !(step.Advance? && step.w == w)
    ensures w in s.workers && InRun(s.workers[w].pc)
    ensures var me, after := s.workers[w], WorkersAfter(s, step)[w];
      after.id == me.id && after.sub == me.sub && after.lease == me.lease && (after.pc == me.pc || after.pc.Thrown?)
  {
    OtherWorker(s, step, w);
    hide WorkersAfter, Enabled;
  }

  // ---- well-formed rows ----

  predicate RowOk(j: Job, now: Millis) {
    && (j.startedAt.Some? ==> j.startedAt.value <= now)
    && (j.status.Running? ==> j.startedAt.Some?)
    && (j.status.Failed? ==> j.recovery.Some?)
    && (j.cause.Some? && j.cause.value.Superseded? <==> j.superseded && j.status.Completed?)
    && (j.superseded && j.status.Completed? ==> IsVersioned(j))
    && (j.aggregateKey.Some? ==> j.aggregateKey.value == j.subscription)
    && (j.action.Delete? ==> j.target.Some? && !IsVersioned(j) && !j.superseded)
  }

  ghost predicate WorkerOk(s: State, me: Worker) {
    && me.id in s.jobs && SameIdentity(me.job, s.jobs[me.id])
    && me.job.subscription in s.subs
    && me.sub.user == s.subs[me.job.subscription].user && me.sub.name == s.subs[me.job.subscription].name
    && (me.pc.Superseding? || me.pc.CheckingDelete? ==> IsVersioned(me.job))
  }

  ghost predicate RowsOk(s: State) {
    && (forall j :: j in s.jobs ==> s.jobs[j].subscription in s.subs && RowOk(s.jobs[j], s.clock))
    && (forall w :: w in s.workers ==> WorkerOk(s, s.workers[w]))
  }

  lemma SubsStay(s: State, step: Step)
    requires Enabled(s, step)
    ensures forall id :: id in s.subs ==>
      && id in SubsAfter(s, step)
      && SubsAfter(s, step)[id].user == s.subs[id].user && SubsAfter(s, step)[id].name == s.subs[id].name
  {
  }

  lemma RowMovedByWorkerOk(s: State, me: Worker, j: JobId, after: Job)
    requires WorkerOk(s, me) && j in s.jobs && RowOk(s.jobs[j], s.clock) && WorkerMove(s, me, j, after)
    ensures RowOk(after, s.clock) && SameIdentity(after, s.jobs[j])
  {
  }

  lemma MovedRowOk(s: State, step: Step, j: JobId, after: Job)
    requires RowsOk(s) && j in s.jobs && RowMove(s, step, j, after)
    ensures RowOk(after, s.clock) && SameIdentity(after, s.jobs[j])
  {
    assert RowOk(s.jobs[j], s.clock);
    if step.Advance? && step.w in s.workers && WorkerMove(s, s.workers[step.w], j, after) {
      assert WorkerOk(s, s.workers[step.w]);
      RowMovedByWorkerOk(s, s.workers[step.w], j, after);
    }
    hide RowsOk, WorkerMove;
  }

  lemma MovedWorkerOk(s: State, me: Worker, newId: nat, found: Option<ProfileId>)
    requires CanAdvance(s, me, newId, found) && WorkerOk(s, me) && NextWorker(s, me, newId, found).Some?
    ensures WorkerOk(s, NextWorker(s, me, newId, found).value)
    ensures NextWorker(s, me, newId, found).value.id == me.id && NextWorker(s, me, newId, found).value.job == me.job
  {
  }

  /** A worker's claim rests on the identity of its row and of its subscription only. */
  lemma WorkerFrame(s: State, t: State, me: Worker)
    requires WorkerOk(s, me)
    requires me.id in t.jobs && SameIdentity(s.jobs[me.id], t.jobs[me.id])
    requires me.job.subscription in t.subs
    requires t.subs[me.job.subscription].user == s.subs[me.job.subscription].user
    requires t.subs[me.job.subscription].name == s.subs[me.job.subscription].name
    ensures WorkerOk(t, me)
  {
  }

  lemma MoveKeepsIdentity(s: State, step: Step, j: JobId, after: Job)
    requires j in s.jobs && RowMove(s, step, j, after)
    ensures SameIdentity(s.jobs[j], after)
  {
  }

  lemma WorkerRows(s: State, me: Worker)
    requires WorkerOk(s, me)
    ensures me.id in s.jobs && me.job.subscription in s.subs
  {
  }

  lemma WorkerStaysOk(s: State, step: Step, me: Worker)
    requires Enabled(s, step) && WorkerOk(s, me)
    ensures WorkerOk(Apply(s, step), me)
  {
    hide JobsAfter, SubsAfter, WorkersAfter, PanelAfter, HistoryAfter, ProjectionsAfter, Enabled, RowMove, WorkerOk;
    assert me.id in s.jobs && me.job.subscription in s.subs by { WorkerRows(s, me); }
    JobRows(s, step);
    SubsStay(s, step);
    MoveKeepsIdentity(s, step, me.id, JobsAfter(s, step)[me.id]);
    WorkerFrame(s, Apply(s, step), me);
  }

  lemma WorkerOkStep(s: State, step: Step, w: WorkerId)
    requires RowsOk(s) && Enabled(s, step) && w in WorkersAfter(s, step)
    ensures WorkerOk(Apply(s, step), WorkersAfter(s, step)[w])
  {
    var after := WorkersAfter(s, step)[w];
    assert WorkerOk(s, after) by {
      if step.Advance? && step.w == w { MovedWorkerOk(s, s.workers[w], step.newId, step.found); }
    }
    WorkerStaysOk(s, step, after);
  }

  lemma FreshRowOk(j: Job, now: Millis)
    requires FreshRow(j)
    ensures RowOk(j, now)
  {
  }

  lemma RowOkLater(j: Job, now: Millis, later: Millis)
    requires RowOk(j, now) && now <= later
    ensures RowOk(j, later)
  {
  }

  lemma JobRowOk(s: State, step: Step, j: JobId)
    requires RowsOk(s) && Enabled(s, step) && j in JobsAfter(s, step)
    ensures JobsAfter(s, step)[j].subscription in SubsAfter(s, step)
    ensures RowOk(JobsAfter(s, step)[j], Apply(s, step).clock)
  {
    JobRows(s, step);
    SubsStay(s, step);
    hide JobsAfter, SubsAfter, WorkersAfter, PanelAfter, RowMove, CanAdvance, RowOk, WorkerOk, FreshRow, Enabled;
    var after := JobsAfter(s, step)[j];
    if j in s.jobs { MovedRowOk(s, step, j, after); } else { FreshRowOk(after, s.clock); }
    RowOkLater(after, s.clock, Apply(s, step).clock);
  }

  lemma RowsOkStep(s: State, step: Step)
    requires RowsOk(s) && Enabled(s, step)
    ensures RowsOk(Apply(s, step))
  {
    var t := Apply(s, step);
    hide JobsAfter, SubsAfter, WorkersAfter, Enabled, RowOk, WorkerOk;
    forall j | j in t.jobs ensures t.jobs[j].subscription in t.subs && RowOk(t.jobs[j], t.clock) {
      JobRowOk(s, step, j);
    }
    forall w | w in t.workers ensures WorkerOk(t, t.workers[w]) { WorkerOkStep(s, step, w); }
  }
}
