/** Rows of the profile-sync tables and the guarded updates the code performs on them. */
module SyncRows {
  import opened Wrappers

  type JobId = nat
  type SubId = nat
  type UserId = string
  type ProfileId = nat
  type Millis = nat

  datatype Action = Create | Update | Delete | TrafficReset
  datatype JobStatus = Pending | Running | Completed | Failed
  datatype SubStatus = Active | Disabled | Expired | Limited | Deleted
  datatype Classification = Transient | Terminal

  datatype Supersession = ByRevision | ByDelete

  /** The `cause` column: what superseded the job, or the reason its creator gave. */
  datatype Cause = Superseded(reason: Supersession) | Origin(text: string)

  /** The limits of one projection revision; `None` is unlimited. */
  datatype Limits = Limits(traffic: Option<nat>, devices: Option<nat>)

  /** The subscription columns that the update fingerprint covers, besides user and link. */
  datatype Fields = Fields(trafficGb: Option<nat>, deviceLimit: Option<int>, squads: seq<string>,
                           externalSquad: Option<string>, expiresAt: Option<int>,
                           tag: Option<string>, strategy: Option<string>)

  /** The same columns as the panel stores them. */
  datatype PanelFields = PanelFields(trafficBytes: nat, devices: nat, squads: seq<string>,
                                     externalSquad: Option<string>, expireAt: int,
                                     tag: Option<string>, strategy: string)

  datatype Sub = Sub(user: UserId, name: string, link: Option<ProfileId>, status: SubStatus, fields: Fields)

  datatype Job = Job(subscription: SubId, action: Action, status: JobStatus, attempts: nat,
                     target: Option<ProfileId>, aggregateKey: Option<SubId>, desiredRevision: Option<nat>,
                     superseded: bool, cause: Option<Cause>, recovery: Option<Classification>,
                     startedAt: Option<Millis>, createdAt: Millis)

  datatype Projection = Projection(desiredRevision: nat, desired: Limits, lastApplied: Option<nat>)

  const MAX_ATTEMPTS: nat := 5
  const STALE_LEASE_MS: nat := 15 * 60 * 1000
  const GIB: nat := 1024 * 1024 * 1024

  // ---- what an absolute write leaves on the panel ----

  function ToPanelDeviceLimit(limit: Option<int>): nat {
    if limit.None? || limit.value < 0 then 0 else limit.value
  }

  /** `updatePanelUser`: an absent expiry or strategy is omitted, so the panel keeps its own. */
  function Patch(p: PanelFields, f: Fields): PanelFields {
    PanelFields((if f.trafficGb.Some? then f.trafficGb.value else 0) * GIB,
                ToPanelDeviceLimit(f.deviceLimit), f.squads, f.externalSquad,
                if f.expiresAt.Some? then f.expiresAt.value else p.expireAt,
                f.tag,
                if f.strategy.Some? then f.strategy.value else p.strategy)
  }

  /** `strictSetUserLimits`: unlimited is written as 0 and the expiry is left alone. */
  function StrictSet(p: PanelFields, limits: Limits, f: Fields): PanelFields {
    PanelFields(if limits.traffic.Some? then limits.traffic.value else 0,
                if limits.devices.Some? then limits.devices.value else 0,
                f.squads, f.externalSquad, p.expireAt, f.tag,
                if f.strategy.Some? then f.strategy.value else p.strategy)
  }

  /** `strictGetPanelUser`: 0 decodes to unlimited. */
  function StrictRead(p: PanelFields): Limits {
    Limits(if p.trafficBytes == 0 then None else Some(p.trafficBytes),
           if p.devices == 0 then None else Some(p.devices))
  }

  /** The panel holds everything this row has an opinion on. */
  predicate Synced(p: PanelFields, f: Fields) {
    && p.trafficBytes == (if f.trafficGb.Some? then f.trafficGb.value else 0) * GIB
    && p.devices == ToPanelDeviceLimit(f.deviceLimit)
    && p.squads == f.squads && p.externalSquad == f.externalSquad && p.tag == f.tag
    && (f.expiresAt.Some? ==> p.expireAt == f.expiresAt.value)
    && (f.strategy.Some? ==> p.strategy == f.strategy.value)
  }

  /** `profileUpdateFingerprint` is equal for both rows. */
  predicate SameFingerprint(a: Sub, b: Sub) {
    a.user == b.user && a.link == b.link && a.fields == b.fields
  }

  // ---- row guards and row updates ----

  predicate Claimable(j: Job) { (j.status.Pending? || j.status.Failed?) && !j.superseded }

  predicate HeldBy(j: Job, lease: Millis) {
    j.status.Running? && !j.superseded && j.startedAt == Some(lease)
  }

  predicate Unfinished(j: Job) { !j.status.Completed? }

  /** FAILED rows the recovery sweep re-drives; `legacy` is the opt-in for unclassified rows. */
  predicate Recoverable(j: Job, legacy: bool) {
    j.status.Failed? && !j.superseded && (j.recovery == Some(Transient) || (legacy && j.recovery.None?))
  }

  predicate StaleLease(j: Job, now: Millis) {
    j.status.Running? && !j.superseded && j.startedAt.Some? && j.startedAt.value + STALE_LEASE_MS < now
  }

  predicate IsVersioned(j: Job) { j.aggregateKey.Some? && j.desiredRevision.Some? }

  predicate OlderSibling(j: Job, key: SubId, revision: nat) {
    Claimable(j) && j.aggregateKey == Some(key) && j.desiredRevision.Some? && j.desiredRevision.value < revision
  }

  /** A DELETE of `target` that still has to run. */
  predicate OpenDelete(j: Job, sub: SubId, target: ProfileId) {
    j.subscription == sub && j.action.Delete? && Unfinished(j) && j.target == Some(target)
  }

  /** The columns no update of a row touches. */
  predicate SameIdentity(a: Job, b: Job) {
    && a.subscription == b.subscription && a.action == b.action && a.target == b.target
    && a.aggregateKey == b.aggregateKey && a.desiredRevision == b.desiredRevision && a.createdAt == b.createdAt
  }

  function ClaimRow(j: Job, now: Millis): Job {
    j.(status := Running, startedAt := Some(now), attempts := j.attempts + 1, recovery := None)
  }

  function CompleteRow(j: Job): Job { j.(status := Completed, recovery := None) }

  function FailRow(j: Job, c: Classification): Job { j.(status := Failed, recovery := Some(c)) }

  function SupersedeRow(j: Job, reason: Supersession): Job {
    j.(superseded := true, status := Completed, cause := Some(Superseded(reason)))
  }

  function RecoverRow(j: Job): Job { j.(status := Pending, attempts := 0) }

  function ReclaimRow(j: Job): Job { j.(status := Pending) }

  /** What deleting the subscription does to its other jobs: superseded, status untouched. */
  function RetireRow(j: Job): Job {
    if !j.action.Delete? && Unfinished(j) && !j.superseded then j.(superseded := true) else j
  }

  function NewJob(sub: SubId, action: Action, target: Option<ProfileId>, revision: Option<nat>,
                  cause: Option<string>, now: Millis): Job {
    Job(sub, action, Pending, 0, target, if revision.Some? then Some(sub) else None, revision,
        false, if cause.Some? then Some(Origin(cause.value)) else None, None, None, now)
  }

  // ---- guarded updates of one row: a failed guard changes nothing ----

  function ClaimIn(jobs: map<JobId, Job>, id: JobId, now: Millis): map<JobId, Job> {
    if id in jobs && Claimable(jobs[id]) then jobs[id := ClaimRow(jobs[id], now)] else jobs
  }

  function CompleteIn(jobs: map<JobId, Job>, id: JobId, lease: Millis): map<JobId, Job> {
    if id in jobs && HeldBy(jobs[id], lease) then jobs[id := CompleteRow(jobs[id])] else jobs
  }

  function FailIn(jobs: map<JobId, Job>, id: JobId, lease: Millis, c: Classification): map<JobId, Job> {
    if id in jobs && HeldBy(jobs[id], lease) then jobs[id := FailRow(jobs[id], c)] else jobs
  }

  function SupersedeIn(jobs: map<JobId, Job>, id: JobId, reason: Supersession): map<JobId, Job> {
    if id in jobs && Claimable(jobs[id]) then jobs[id := SupersedeRow(jobs[id], reason)] else jobs
  }

  function DetachIn(subs: map<SubId, Sub>, id: SubId, stale: ProfileId): map<SubId, Sub> {
    if id in subs && subs[id].link == Some(stale) then subs[id := subs[id].(link := None)] else subs
  }

  function RetireIn(subs: map<SubId, Sub>, id: SubId, gone: ProfileId): map<SubId, Sub> {
    if id in subs && subs[id].link == Some(gone) then subs[id := subs[id].(link := None, status := Deleted)] else subs
  }

  /** Stamped applied only while the projection still desires that very revision. */
  function AppliedIn(projections: map<SubId, Projection>, id: SubId, revision: nat): map<SubId, Projection> {
    if id in projections && projections[id].desiredRevision == revision
    then projections[id := projections[id].(lastApplied := Some(revision))] else projections
  }

  /** The projection has moved strictly past `revision`. */
  predicate Outdated(projections: map<SubId, Projection>, sub: SubId, revision: nat) {
    sub in projections && revision < projections[sub].desiredRevision
  }

  // ---- updates of many rows ----

  function SupersedeSiblings(jobs: map<JobId, Job>, key: SubId, revision: nat): map<JobId, Job> {
    map j | j in jobs :: if OlderSibling(jobs[j], key, revision) then SupersedeRow(jobs[j], ByRevision) else jobs[j]
  }

  function RetireJobs(jobs: map<JobId, Job>, sub: SubId): map<JobId, Job> {
    map j | j in jobs :: if jobs[j].subscription == sub then RetireRow(jobs[j]) else jobs[j]
  }

  predicate HasOpenDelete(jobs: map<JobId, Job>, sub: SubId, target: ProfileId) {
    exists j :: j in jobs && OpenDelete(jobs[j], sub, target)
  }

  predicate HasPendingDelete(jobs: map<JobId, Job>, sub: SubId) {
    exists j :: j in jobs && jobs[j].subscription == sub && jobs[j].action.Delete?
                && !jobs[j].superseded && Unfinished(jobs[j])
  }

  /** `createDeleteJobIfMissing`, with `newId` the id a new row would get. */
  function EnsureDelete(jobs: map<JobId, Job>, sub: SubId, target: ProfileId, newId: JobId, now: Millis)
    : map<JobId, Job>
  {
    if HasOpenDelete(jobs, sub, target) then jobs
    else jobs[newId := NewJob(sub, Delete, Some(target), None, None, now)]
  }
}
