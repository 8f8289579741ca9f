/**
 * The profile-sync protocol as a transition system. Every `updateMany`,
 * transaction, query and panel call is one step; workers interleave freely,
 * may throw after any step of a run and may die anywhere.
 */
module SyncMachine {
  import opened Wrappers
  import opened SyncRows
  import Naming
  import OwnerMarker

  type WorkerId = nat

  datatype Profile = Profile(username: string, description: string, fields: PanelFields)

  /** Whose profile it is, as far as its description tells. */
  function Owner(p: Profile): Option<UserId> { OwnerMarker.ReadOwner(p.description) }

  /** Where a worker is. Everything before `Looking` runs before the claim. */
  datatype Pc =
    | Loaded | CheckingDelete | Superseding(reason: Supersession) | ReadyToClaim
    | Looking | Creating | Linking(profile: ProfileId)
    | Reloading | ReadingProjection
    | StrictPatching(revision: nat, limits: Limits) | StrictReading(revision: nat, limits: Limits)
    | StrictCommitting(revision: nat)
    | Patching(round: nat) | Verifying(round: nat)
    | Detaching(stale: ProfileId) | Refreshing
    | EnsuringDelete(target: ProfileId)
    | DeletingPanel(target: ProfileId) | Retiring(target: ProfileId)
    | Resetting(profile: ProfileId)
    | Finishing | Sibling | Thrown(classification: Classification)

  /** `job` is the row as first loaded, `sub` the subscription as last loaded. */
  datatype Worker = Worker(id: JobId, job: Job, sub: Sub, lease: Millis, pc: Pc)

  datatype ReadBack = ReadBack(sub: SubId, revision: nat, limits: Limits)
  datatype Verdict = Verdict(id: JobId, lease: Millis, classification: Classification)

  /** What happened so far; no guard reads it. */
  datatype History = History(desiredAt: map<(SubId, nat), Limits>, readBacks: set<ReadBack>,
                             verdicts: set<Verdict>, alerts: set<Verdict>)

  datatype State = State(clock: Millis, projectionSync: bool, users: map<UserId, Naming.User>,
                         jobs: map<JobId, Job>, subs: map<SubId, Sub>, projections: map<SubId, Projection>,
                         panel: map<ProfileId, Profile>, minted: set<ProfileId>,
                         workers: map<WorkerId, Worker>, history: History)

  datatype Step =
    // the world around the workers
    | Tick(ms: nat)
    | PutUser(account: Naming.User)
    | AddSub(newSub: SubId, user: UserId, name: string, fields: Fields)
    | Edit(sub: SubId, fields: Fields, action: Action, revision: Option<nat>, cause: Option<string>, newJob: JobId)
    | SetStatus(sub: SubId, status: SubStatus)
    | Enqueue(sub: SubId, action: Action, revision: Option<nat>, cause: Option<string>, newJob: JobId)
    | Recompute(sub: SubId, limits: Limits)
    | DeleteSub(sub: SubId, newJob: JobId)
    | RecoverFailed(id: JobId, legacy: bool)
    | RetryFailed(id: JobId)
    | ReclaimStale(id: JobId, seenStartedAt: Millis)
    // the workers
    | Start(w: WorkerId, id: JobId)
    | Advance(w: WorkerId, newId: nat, found: Option<ProfileId>)
    | Throw(w: WorkerId, classification: Classification)
    | Crash(w: WorkerId)

  // ---- worker positions ----

  predicate BeforeClaim(pc: Pc) {
    pc.Loaded? || pc.CheckingDelete? || pc.Superseding? || pc.ReadyToClaim?
  }

  /** Does this worker still owe a terminal write under its lease? */
  predicate InRun(pc: Pc) { !BeforeClaim(pc) && !pc.Sibling? }

  /** Where a claimed worker starts, by action and by the subscription it loaded. */
  function Entry(job: Job, sub: Sub): Pc {
    match job.action
    case Create => if sub.link.Some? then Reloading else Looking
    case Update => Reloading
    case Delete =>
      if job.target.Some? then DeletingPanel(job.target.value)
      else if sub.link.Some? then DeletingPanel(sub.link.value) else Finishing
    case TrafficReset => if sub.link.Some? then Resetting(sub.link.value) else Finishing
  }

  function CreatedFields(f: Fields): PanelFields {
    Patch(PanelFields(0, 0, [], None, 0, None, "NO_RESET"), f)
  }

  // ---- guards ----

  /** What a worker's step needs: the rows it addresses, an unused id, a truthful panel answer. */
  ghost predicate CanAdvance(s: State, me: Worker, newId: nat, found: Option<ProfileId>) {
    && me.id in s.jobs && me.job.subscription in s.subs
    && match me.pc
       case Looking =>
         found.Some? ==> found.value in s.panel && s.panel[found.value].username == me.sub.name
       case Creating =>
         && me.sub.user in s.users && newId !in s.minted
         && forall p :: p in s.panel ==> s.panel[p].username != me.sub.name
       case Linking(_) => newId !in s.jobs
       case EnsuringDelete(_) => newId !in s.jobs
       case StrictPatching(_, _) => me.sub.link.Some? && me.sub.link.value in s.panel
       case StrictReading(_, _) => me.sub.link.Some? && me.sub.link.value in s.panel
       case StrictCommitting(_) => me.sub.link.Some?
       case Patching(_) => me.sub.link.Some? && me.sub.user in s.users
       case Verifying(_) => me.sub.link.Some?
       case _ => true
  }

  /** A job never asks for a revision its projection has not reached. */
  predicate Attained(s: State, id: SubId, revision: Option<nat>) {
    revision.Some? ==> id in s.projections && revision.value <= s.projections[id].desiredRevision
  }

  ghost predicate Enabled(s: State, step: Step) {
    match step
    case Tick(_) => true
    case PutUser(account) => OwnerMarker.IsId(account.id) && OwnerMarker.Legible(account)
    case AddSub(id, user, name, _) =>
      && id !in s.subs && user in s.users
      && forall o :: o in s.subs && s.subs[o].user == user ==> s.subs[o].name != name
    case Edit(id, _, a, r, _, j) =>
      && id in s.subs && !s.subs[id].status.Deleted? && j !in s.jobs && (a.Create? || a.Update?) && Attained(s, id, r)
    case SetStatus(id, st) => id in s.subs && !s.subs[id].status.Deleted? && !st.Deleted?
    case Enqueue(id, a, r, _, j) => id in s.subs && j !in s.jobs && !a.Delete? && Attained(s, id, r)
    case Recompute(id, _) => id in s.subs && !s.subs[id].status.Deleted?
    case DeleteSub(id, j) => id in s.subs && !s.subs[id].status.Deleted? && j !in s.jobs
    case RecoverFailed(j, legacy) => j in s.jobs && Recoverable(s.jobs[j], legacy)
    case RetryFailed(j) => j in s.jobs && s.jobs[j].status.Failed? && !s.jobs[j].superseded
    case ReclaimStale(j, seen) => j in s.jobs && HeldBy(s.jobs[j], seen) && StaleLease(s.jobs[j], s.clock)
    case Start(w, j) =>
      && w !in s.workers && j in s.jobs && s.jobs[j].subscription in s.subs
      && Unfinished(s.jobs[j]) && !s.jobs[j].superseded
    case Advance(w, newId, found) => w in s.workers && CanAdvance(s, s.workers[w], newId, found)
    case Throw(w, _) => w in s.workers && InRun(s.workers[w].pc) && !s.workers[w].pc.Thrown?
    case Crash(w) => w in s.workers
  }

  // ---- effects, table by table ----

  ghost function JobsAfter(s: State, step: Step): map<JobId, Job>
    requires Enabled(s, step)
  {
    match step
    case Edit(id, _, a, r, cause, j) => s.jobs[j := NewJob(id, a, None, r, cause, s.clock)]
    case Enqueue(id, a, r, cause, j) => s.jobs[j := NewJob(id, a, None, r, cause, s.clock)]
    case DeleteSub(id, j) =>
      var link := s.subs[id].link;
      if link.Some? then RetireJobs(s.jobs, id)[j := NewJob(id, Delete, link, None, None, s.clock)]
      else RetireJobs(s.jobs, id)
    case RecoverFailed(j, _) => s.jobs[j := RecoverRow(s.jobs[j])]
    case RetryFailed(j) => s.jobs[j := RecoverRow(s.jobs[j])]
    case ReclaimStale(j, _) => s.jobs[j := ReclaimRow(s.jobs[j])]
    case Advance(w, newId, _) => JobsAdvance(s, s.workers[w], newId)
    case _ => s.jobs
  }

  ghost function JobsAdvance(s: State, me: Worker, newId: nat): map<JobId, Job>
    requires me.id in s.jobs && me.job.subscription in s.subs
  {
    var sub := s.subs[me.job.subscription];
    match me.pc
    case Superseding(reason) => SupersedeIn(s.jobs, me.id, reason)
    case ReadyToClaim => ClaimIn(s.jobs, me.id, s.clock)
    case Linking(p) =>
      if sub.status.Active? then s.jobs else EnsureDelete(s.jobs, me.job.subscription, p, newId, s.clock)
    case EnsuringDelete(p) =>
      if sub.status.Deleted? then EnsureDelete(s.jobs, me.job.subscription, p, newId, s.clock) else s.jobs
    case Finishing => CompleteIn(s.jobs, me.id, me.lease)
    case Thrown(c) => FailIn(s.jobs, me.id, me.lease, c)
    case Sibling =>
      if s.projectionSync && IsVersioned(me.job)
      then SupersedeSiblings(s.jobs, me.job.aggregateKey.value, me.job.desiredRevision.value) else s.jobs
    case _ => s.jobs
  }

  ghost function SubsAfter(s: State, step: Step): map<SubId, Sub>
    requires Enabled(s, step)
  {
    match step
    case AddSub(id, user, name, fields) => s.subs[id := Sub(user, name, None, Active, fields)]
    case Edit(id, fields, _, _, _, _) => s.subs[id := s.subs[id].(fields := fields)]
    case SetStatus(id, st) => s.subs[id := s.subs[id].(status := st)]
    case DeleteSub(id, _) => s.subs[id := s.subs[id].(status := Deleted)]
    case Advance(w, _, _) =>
      var id := s.workers[w].job.subscription;
      (match s.workers[w].pc
       case Linking(p) => s.subs[id := s.subs[id].(link := Some(p))]
       case Detaching(p) => DetachIn(s.subs, id, p)
       case Retiring(p) => RetireIn(s.subs, id, p)
       case _ => s.subs)
    case _ => s.subs
  }

  ghost function ProjectionsAfter(s: State, step: Step): map<SubId, Projection>
    requires Enabled(s, step)
  {
    match step
    case Recompute(id, limits) =>
      s.projections[id := if id in s.projections
                          then Projection(s.projections[id].desiredRevision + 1, limits, s.projections[id].lastApplied)
                          else Projection(0, limits, None)]
    case Advance(w, _, _) =>
      if s.workers[w].pc.StrictCommitting?
      then AppliedIn(s.projections, s.workers[w].job.subscription, s.workers[w].pc.revision) else s.projections
    case _ => s.projections
  }

  ghost function PanelAfter(s: State, step: Step): map<ProfileId, Profile>
    requires Enabled(s, step)
  {
    match step
    case Advance(w, newId, _) =>
      var me := s.workers[w];
      (match me.pc
       case Creating =>
         s.panel[newId := Profile(me.sub.name, OwnerMarker.Description(s.users[me.sub.user]),
                                  CreatedFields(me.sub.fields))]
       case StrictPatching(_, limits) =>
         var p := me.sub.link.value;
         s.panel[p := s.panel[p].(fields := StrictSet(s.panel[p].fields, limits, me.sub.fields))]
       case Patching(_) =>
         var p := me.sub.link.value;
         if p !in s.panel then s.panel
         else s.panel[p := s.panel[p].(description := OwnerMarker.Description(s.users[me.sub.user]),
                                       fields := Patch(s.panel[p].fields, me.sub.fields))]
       case DeletingPanel(p) => s.panel - {p}
       case _ => s.panel)
    case _ => s.panel
  }

  ghost function MintedAfter(s: State, step: Step): set<ProfileId>
    requires Enabled(s, step)
  {
    if step.Advance? && s.workers[step.w].pc.Creating? then s.minted + {step.newId} else s.minted
  }

  ghost function WorkersAfter(s: State, step: Step): map<WorkerId, Worker>
    requires Enabled(s, step)
  {
    match step
    case Start(w, j) => s.workers[w := Worker(j, s.jobs[j], s.subs[s.jobs[j].subscription], 0, Loaded)]
    case Advance(w, newId, found) =>
      var next := NextWorker(s, s.workers[w], newId, found);
      if next.Some? then s.workers[w := next.value] else s.workers - {w}
    case Throw(w, c) => s.workers[w := s.workers[w].(pc := Thrown(c))]
    case Crash(w) => s.workers - {w}
    case _ => s.workers
  }

  /** Where the worker stands after its step; `None` when `process` returns. */
  ghost function NextWorker(s: State, me: Worker, newId: nat, found: Option<ProfileId>): Option<Worker>
    requires CanAdvance(s, me, newId, found)
  {
    var id := me.job.subscription;
    var row := s.jobs[me.id];
    var latest := s.subs[id];
    match me.pc
    // `process` up to the claim
    case Loaded =>
      Some(me.(pc :=
        if !s.projectionSync || !IsVersioned(me.job) then ReadyToClaim
        else if Outdated(s.projections, me.job.aggregateKey.value, me.job.desiredRevision.value)
        then Superseding(ByRevision)
        else if me.job.action.Delete? then ReadyToClaim else CheckingDelete))
    case CheckingDelete =>
      Some(me.(pc := if me.job.aggregateKey.Some? && HasPendingDelete(s.jobs, me.job.aggregateKey.value)
                     then Superseding(ByDelete) else ReadyToClaim))
    case Superseding(_) => None
    case ReadyToClaim => if Claimable(row) then Some(me.(lease := s.clock, pc := Entry(me.job, me.sub))) else None
    // `handleCreate`
    case Looking =>
      Some(me.(pc :=
        if found.None? then Creating
        else if OwnerMarker.MayLink(Some(s.panel[found.value].description), me.sub.user) then Linking(found.value)
        else Thrown(Terminal)))
    case Creating => Some(me.(pc := Linking(newId)))
    case Linking(_) => Some(me.(pc := Finishing))
    // `handleUpdate`
    case Reloading =>
      Some(me.(sub := latest, pc :=
        if latest.link.None? then Looking
        else if s.projectionSync && IsVersioned(me.job) then ReadingProjection else Patching(0)))
    case ReadingProjection =>
      Some(me.(pc := if id in s.projections
                     then StrictPatching(s.projections[id].desiredRevision, s.projections[id].desired)
                     else Patching(0)))
    case StrictPatching(r, limits) => Some(me.(pc := StrictReading(r, limits)))
    case StrictReading(r, limits) =>
      Some(me.(pc := if StrictRead(s.panel[me.sub.link.value].fields) == limits
                     then StrictCommitting(r) else Thrown(Terminal)))
    case StrictCommitting(_) => Some(me.(pc := EnsuringDelete(me.sub.link.value)))
    case Patching(round) =>
      Some(me.(pc := if me.sub.link.value in s.panel then Verifying(round) else Detaching(me.sub.link.value)))
    case Verifying(round) =>
      if SameFingerprint(latest, me.sub) then Some(me.(pc := EnsuringDelete(me.sub.link.value)))
      else Some(me.(sub := latest, pc :=
        if round + 1 >= 3 then Thrown(Transient) else if latest.link.None? then Looking else Patching(round + 1)))
    case Detaching(_) => Some(me.(pc := Refreshing))
    case Refreshing => Some(me.(sub := latest, pc := if latest.link.Some? then Reloading else Looking))
    case EnsuringDelete(_) => Some(me.(pc := Finishing))
    // `handleDelete` and `handleTrafficReset`
    case DeletingPanel(p) => Some(me.(pc := Retiring(p)))
    case Retiring(_) => Some(me.(pc := Finishing))
    case Resetting(p) => Some(me.(pc := EnsuringDelete(p)))
    // the end of `process`
    case Finishing => if HeldBy(row, me.lease) then Some(me.(pc := Sibling)) else None
    case Sibling => None
    case Thrown(_) => None
  }

  ghost function HistoryAfter(s: State, step: Step): History
    requires Enabled(s, step)
  {
    var h := s.history;
    match step
    case Recompute(id, limits) =>
      h.(desiredAt := h.desiredAt[(id, ProjectionsAfter(s, step)[id].desiredRevision) := limits])
    case Advance(w, _, _) =>
      var me := s.workers[w];
      (match me.pc
       case StrictReading(r, _) =>
         var read := StrictRead(s.panel[me.sub.link.value].fields);
         h.(readBacks := h.readBacks + {ReadBack(me.job.subscription, r, read)})
       case Thrown(c) =>
         if !HeldBy(s.jobs[me.id], me.lease) then h
         else h.(verdicts := h.verdicts + {Verdict(me.id, me.lease, c)},
                 alerts := if me.job.attempts + 1 >= MAX_ATTEMPTS && c.Terminal?
                           then h.alerts + {Verdict(me.id, me.lease, c)} else h.alerts)
       case _ => h)
    case _ => h
  }

  ghost function Apply(s: State, step: Step): State
    requires Enabled(s, step)
  {
    State(if step.Tick? then s.clock + step.ms else s.clock, s.projectionSync,
          if step.PutUser? then s.users[step.account.id := step.account] else s.users,
          JobsAfter(s, step), SubsAfter(s, step), ProjectionsAfter(s, step),
          PanelAfter(s, step), MintedAfter(s, step), WorkersAfter(s, step), HistoryAfter(s, step))
  }

  /** A freshly deployed system: no rows, nothing on the panel. */
  ghost predicate Init(s: State) {
    && s.users == map[] && s.jobs == map[] && s.subs == map[] && s.projections == map[]
    && s.panel == map[] && s.workers == map[]
    && s.history == History(map[], {}, {}, {})
  }

  ghost predicate Run(s: State, steps: seq<Step>, t: State)
    decreases |steps|
  {
    if steps == [] then s == t
    else Enabled(s, steps[0]) && Run(Apply(s, steps[0]), steps[1..], t)
  }
}
