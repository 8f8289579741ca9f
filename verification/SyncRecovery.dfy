/** Failure classification, and what it makes of a job that keeps failing. */
module SyncRecovery {
  import opened Wrappers
  import opened SyncRows
  import opened Text

  const SCHEMA_DRIFT_GRACE_MS: nat := 30 * 60 * 1000

  /** Everything `process` may catch, as far as the classification looks at it. */
  datatype Error =
    | UpstreamRejection
    | Unavailable
    | KnownRequest(code: string, message: string)
    | Initialization(errorCode: Option<string>, message: string)
    | Other(message: string)

  predicate IsDrift(code: string) { code == "P2021" || code == "P2022" }

  predicate IsConnectivity(code: string) { code == "P1001" || code == "P1002" }

  predicate WithinGrace(anchor: Option<Millis>, now: Millis) {
    anchor.Some? && now as int - anchor.value <= SCHEMA_DRIFT_GRACE_MS
  }

  predicate RetryableDatabaseError(e: Error, anchor: Option<Millis>, now: Millis) {
    match e
    case KnownRequest(code, _) => if IsDrift(code) then WithinGrace(anchor, now) else IsConnectivity(code)
    case Initialization(code, _) => code.Some? && IsConnectivity(code.value)
    case _ => false
  }

  function Message(e: Error): string {
    match e
    case KnownRequest(_, m) => m
    case Initialization(_, m) => m
    case Other(m) => m
    case _ => ""
  }

  const TRANSIENT_WORDS: seq<string> :=
    ["timeout", "temporar", "econn", "429", "502", "503", "504", "unavailable"]

  predicate SoundsTransient(message: string) {
    exists i :: 0 <= i < |TRANSIENT_WORDS| && Contains(ToLower(message), TRANSIENT_WORDS[i])
  }

  function ClassifyRecovery(e: Error, anchor: Option<Millis>, now: Millis): Classification {
    if e.UpstreamRejection? then Terminal
    else if e.Unavailable? then Transient
    else if RetryableDatabaseError(e, anchor, now) then Transient
    else if SoundsTransient(Message(e)) then Transient else Terminal
  }

  /** Schema drift is TERMINAL exactly once the grace is over, unless its text sounds transient by itself. */
  lemma DriftTurnsTerminal(code: string, message: string, createdAt: Millis, now: Millis)
    requires IsDrift(code)
    ensures ClassifyRecovery(KnownRequest(code, message), Some(createdAt), now).Terminal?
      <==> now > createdAt + SCHEMA_DRIFT_GRACE_MS && !SoundsTransient(message)
  {
  }

  /** No verdict ever returns from TERMINAL to TRANSIENT as time passes. */
  lemma VerdictNeverSoftens(e: Error, anchor: Option<Millis>, now: Millis, later: Millis)
    requires now <= later && ClassifyRecovery(e, anchor, now).Terminal?
    ensures ClassifyRecovery(e, anchor, later).Terminal?
  {
  }

  // ---- one job, its queue deliveries and the sweeps ----

  const DELIVERIES: nat := MAX_ATTEMPTS

  /** `left` is how many times the queue will still hand the job to a worker. */
  datatype Tracked = Tracked(row: Job, left: nat)

  datatype Event =
    | Deliver(now: Millis)
    | FailRun(error: Error, at: Millis)
    | SweepFailed(legacy: bool)
    | SweepPending(retained: bool)

  /** The worker that fails is alive and holds the claim; a plain re-add is ignored while the old entry is retained. */
  predicate Possible(t: Tracked, e: Event) {
    match e
    case Deliver(_) => t.left > 0
    case FailRun(_, _) => t.row.status.Running?
    case SweepFailed(legacy) => Recoverable(t.row, legacy)
    case SweepPending(_) => t.row.status.Pending? && !t.row.superseded
  }

  predicate Claims(t: Tracked, e: Event) { e.Deliver? && Claimable(t.row) }

  function Track(t: Tracked, e: Event): Tracked
    requires Possible(t, e)
  {
    match e
    case Deliver(now) => if Claimable(t.row) then Tracked(ClaimRow(t.row, now), t.left - 1) else Tracked(t.row, 0)
    case FailRun(error, at) => t.(row := FailRow(t.row, ClassifyRecovery(error, Some(t.row.createdAt), at)))
    case SweepFailed(_) => Tracked(RecoverRow(t.row), DELIVERIES)
    case SweepPending(retained) => if retained then t else t.(left := DELIVERIES)
  }

  /** A possible history in which every failure is TERMINAL when it is recorded. */
  predicate Hopeless(t: Tracked, events: seq<Event>)
    decreases |events|
  {
    events != [] ==>
      && Possible(t, events[0])
      && (events[0].FailRun? ==>
            ClassifyRecovery(events[0].error, Some(t.row.createdAt), events[0].at).Terminal?)
      && Hopeless(Track(t, events[0]), events[1..])
  }

  /** A possible history in which every failure is schema drift, met after the grace and reported in plain words. */
  predicate DriftsLate(t: Tracked, events: seq<Event>)
    decreases |events|
  {
    events != [] ==>
      && Possible(t, events[0])
      && (events[0].FailRun? ==>
            && events[0].error.KnownRequest? && IsDrift(events[0].error.code)
            && !SoundsTransient(events[0].error.message)
            && events[0].at > t.row.createdAt + SCHEMA_DRIFT_GRACE_MS)
      && DriftsLate(Track(t, events[0]), events[1..])
  }

  /** Such a history is hopeless: claims and sweeps never move the anchor of the grace. */
  lemma {:induction false} LateDriftIsHopeless(t: Tracked, events: seq<Event>)
    requires DriftsLate(t, events)
    ensures Hopeless(t, events) && End(t, events).row.createdAt == t.row.createdAt
    decreases |events|
  {
    if events != [] {
      if events[0].FailRun? {
        DriftTurnsTerminal(events[0].error.code, events[0].error.message, t.row.createdAt, events[0].at);
      }
      LateDriftIsHopeless(Track(t, events[0]), events[1..]);
    }
  }

  function End(t: Tracked, events: seq<Event>): Tracked
    requires Hopeless(t, events)
    decreases |events|
  {
    if events == [] then t else End(Track(t, events[0]), events[1..])
  }

  function ClaimCount(t: Tracked, events: seq<Event>): nat
    requires Hopeless(t, events)
    decreases |events|
  {
    if events == [] then 0
    else (if Claims(t, events[0]) then 1 else 0) + ClaimCount(Track(t, events[0]), events[1..])
  }

  /** Once claimed, a hopeless job is only RUNNING or FAILED as TERMINAL: no sweep ever requeues it. */
  predicate GivenUp(row: Job) {
    !row.superseded && (row.status.Running? || (row.status.Failed? && row.recovery == Some(Terminal)))
  }

  lemma {:induction false} HopelessJobSettles(t: Tracked, events: seq<Event>)
    requires Hopeless(t, events) && GivenUp(t.row)
    ensures GivenUp(End(t, events).row)
    ensures ClaimCount(t, events) + End(t, events).left <= t.left
    ensures forall i :: 0 <= i < |events| ==> !events[i].SweepFailed? && !events[i].SweepPending?
    decreases |events|
  {
    if events != [] {
      HopelessJobSettles(Track(t, events[0]), events[1..]);
      assert forall i :: 1 <= i < |events| ==> events[i] == events[1..][i - 1];
    }
  }

  /** From the moment it is queued, such a job is claimed at most as often as one delivery allows. */
  lemma {:induction false} HopelessJobIsClaimedFinitelyOften(t: Tracked, events: seq<Event>)
    requires Hopeless(t, events) && t.row.status.Pending? && !t.row.superseded && t.left <= DELIVERIES
    ensures ClaimCount(t, events) <= DELIVERIES
    decreases |events|
  {
    if events != [] {
      var next := Track(t, events[0]);
      if Claims(t, events[0]) {
        HopelessJobSettles(next, events[1..]);
      } else {
        HopelessJobIsClaimedFinitelyOften(next, events[1..]);
      }
    }
  }
}
