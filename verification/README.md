# Verified models of rezeis-admin

Dafny 4.11 models of five parts of `rezeis-admin`, with proofs of what each part is for. `dafny verify dfyconfig.toml`
checks the whole project. Source paths below are relative to the repository root.

| modules | what they model |
|---|---|
| `SyncRows`, `SyncMachine` | the Remnawave profile-sync protocol as a transition system: job, subscription and projection rows, the panel, workers with a program counter and a lease, a clock |
| `SyncInvariants`, `SyncLeases`, `SyncRevisions`, `SyncLinks`, `SyncSafety`, `SyncConvergence`, `SyncProgress` | what every step keeps, and what follows for every reachable state and every run |
| `SyncService`, `SyncSweeps`, `SyncRecovery` | the queue service and the processor as methods on mutable tables; the sweeps as runs of the transition system; failure classification and retry settlement |
| `AutoRenewKeys`, `AutoRenewCharging`, `AutoRenewCycle`, `AutoRenewWarnings` | attempt keys, overlapping charge cycles with stale reads, client renewals and late settlements, the two-pass expiry, expiry warnings |
| `Ipv4`, `Ipv6`, `SharingDetection` (with `Bits`, `Numbers`, `Text`, `Wrappers`) | network keys bit by bit and character by character, the network count, the recency filter |
| `Naming`, `OwnerMarker` | panel profile names, their clamping, the owner marker in descriptions |
| `RateCap`, `Confidence` | the error-archive write cap; the confidence formula over exact reals |

## How the protocol is modelled

Every `updateMany`, transaction, query and panel call is one atomic step. Workers interleave freely, a claimed worker may
throw with either classification between any two steps (which covers a panel call that fails before or after taking
effect, because the effect is a step of its own), and any worker may die anywhere, which is also what an exception before
the claim amounts to. Sweeps recover FAILED rows and reclaim stale RUNNING rows at any time, whether or not the old worker
is dead; the operator's retry puts any FAILED row back. Jobs are created with any cause. Assumptions:

- the claim reads its timestamp and writes it in one step, from a clock that never goes back;
- every account's description reads back as its own (`OwnerMarker.Legible`, the exact condition on its name, login and
  username), and a subscription keeps its generated panel name;
- the panel hands out fresh profile ids, rejects a second profile of one name, and confirms a deletion only when the
  profile is gone;
- the desired values of a revision never change, a recomputation adds one revision, and a job is enqueued with a revision
  its projection has already reached;
- editing the pushed columns of a subscription adds a PENDING CREATE or UPDATE, versioned or not, in the same transaction
  (two writers that do not are named under "Left out"); deleting it sets DELETED, retires its other open jobs and adds a
  DELETE of the linked profile in one transaction
  (`rezeis-admin/src/modules/subscriptions/services/subscription-deletion.service.ts`);
- profiles and links are written by this code only: imports, manual links and account merges are outside the model;
- two subscriptions of one user have different panel names (`Naming.DistinctPanelNames`).

The convergence theorem additionally assumes that the subscription stays linked to one profile that stays on the panel,
that projection sync is off, that the subscription is not deleted, and that a worker whose lease is reclaimed is dead.
The last one is needed: `SyncProgress.ReclaimedWorkerCanUndoAPush` is a run without it that ends with every job COMPLETED,
no worker left, and the panel at an older state than the row.

## Where the code and its documentation part ways

- "Superseded implies COMPLETED" is not what the code does: deleting a subscription sets `supersededAt` and leaves the
  status (`subscription-deletion.service.ts:237-245`). `SyncSafety.SupersededYetPending` is a run that shows it.
  `SyncSafety.SupersededDoneIffNeverRetired` gives the exact condition: along a run all superseded rows are COMPLETED if
  and only if no deletion ever met a job of the subscription, other than a DELETE, that was still to run.
- "One epoch shows nothing but its own attempts, at most three" fails when a client renews under a key that starts like the
  epoch's, which the checkout accepts; `AutoRenewCharging.ExactIffNextKeys` is the exact condition. "One epoch is charged
  at most once" fails in two ways. A client can use such a key between a cycle's read and its charge
  (`AutoRenewCharging.ClientKeyDoublesTheEpoch`). And a payment given up as CANCELED or FAILED is revived by a late SUCCESS
  (`payment-reconciliation.service.ts:152-176`) after a later attempt was paid (`AutoRenewCharging.LateSuccessDoublesTheEpoch`).
  `AutoRenewCharging.NoDoubleCharge` and `AutoRenewCharging.CalmIffSafe` give the exact condition step by step,
  `AutoRenewCharging.RevivalSafeIff` the one under which a late success is harmless.
- The comment on the archive cap speaks of a rolling minute. The code counts in fixed windows: `RateCap.TwiceCapInOneMillisecond`
  admits twice the cap within a millisecond, `RateCap.AnyMinuteAdmitsAtMostTwiceCap` shows that is the worst case, and
  `RateCap.MinuteKeepsCapIff` says from which counter states a minute keeps the cap whatever calls come
  (`RateCap.OneCapKeepsMinuteIff` if all ask for the same cap).
- The expiry pass is documented to expire a row with no chargeable method. A row whose own charge is declined with attempts
  to spare stays ACTIVE even if that charge, or a later one in the same call, costs its user the method.
  `AutoRenewCycle.PromiseKeptIff` shows from the tables before the call that there is no other exception, and
  `AutoRenewCycle.RevokedRowStaysActive` is one.
- Reading the owner marker back can fail for a display name, login or username that reads as a marker:
  `OwnerMarker.MarkerInNameIsReadInstead` is such a family, `OwnerMarker.OwnerReadsBackIff` the exact condition.
- A window that is not finite counts as zero in `selectConcurrentSamples`, so it is the narrowest window, not the widest
  (`SharingDetection.NeverCountsMoreIff`).
- An IPv6 prefix is rounded up to whole hextets, at least one, before grouping (`Ipv6.KeyIffLeadingHextetsAgree`).
- `persistProfileLink` queues a DELETE for every status that is not ACTIVE, and `updatePanelUser` omits an absent expiry or
  reset strategy, so "the panel agrees with the row" is about the columns the row has an opinion on (`SyncRows.Synced`).

## Model

| member | source | states |
|---|---|---|
| SyncSafety.InvStep | rezeis-admin/src/modules/profile-sync/profile-sync.processor.ts:59-148 | every step of every worker, sweep and outside writer keeps the row, lease, revision, link and no-orphan invariants |
| SyncSafety.NoLiveOrphan | rezeis-admin/src/modules/profile-sync/profile-sync.processor.ts:545-577 | in every reachable state, a profile still on the panel and linked to a DELETED subscription has a live DELETE of exactly that profile that is not COMPLETED |
| SyncLinks.DetachedOnlyWhenGone | rezeis-admin/src/modules/profile-sync/profile-sync.processor.ts:816-849 | a link is dropped only when that very profile has left the panel for good, and a worker retires a subscription only for the profile it is linked to |
| SyncLinks.OpenDeleteStays | rezeis-admin/src/modules/profile-sync/profile-sync.processor.ts:732-814 | an open DELETE of a profile stays open under every step until the profile is gone |
| SyncSafety.NeverCrossLinked | rezeis-admin/src/modules/profile-sync/profile-sync.processor.ts:473-529 | in every reachable state the description of a linked profile on the panel, text and all, reads as the subscription's own user's, its name is the subscription's own, and no other subscription is linked to it |
| SyncLeases.OnlyTheHolderSettles | rezeis-admin/src/modules/profile-sync/profile-sync.processor.ts:83-148 | a RUNNING row is completed or failed only by the worker whose claim stamped its current `startedAt`, no other running worker of that row has that stamp, and a FAILED row carries the recorded classification |
| SyncSafety.OneHolderPerJob | rezeis-admin/src/modules/profile-sync/profile-sync.processor.ts:83-102 | two running workers never both hold the claim on one row, whatever was reclaimed in between |
| SyncLeases.SettledRowsAreFrozen | rezeis-admin/src/modules/profile-sync/profile-sync.processor.ts:73-75 | COMPLETED is final and a superseded row never changes again |
| SyncLeases.AlertMeansPersistedTerminal | rezeis-admin/src/modules/profile-sync/profile-sync.processor.ts:174-223 | an alert is raised only by the lease that in the same step leaves the row FAILED and TERMINAL |
| SyncSafety.RowsTellTheTruth | rezeis-admin/src/modules/profile-sync/profile-sync.processor.ts:174-196 | every FAILED row is classified; a superseded row is COMPLETED if and only if the processor's own cause is on it, whatever cause it was created with; SUPERSEDED_BY_REVISION means a strictly newer revision exists |
| SyncSafety.SupersededDoneIffNeverRetired | rezeis-admin/src/modules/profile-sync/profile-sync.processor.ts:387-404 | along any run, all superseded rows are COMPLETED if and only if no deletion met an open job of its subscription other than a DELETE |
| SyncSafety.SupersededYetPending | rezeis-admin/src/modules/subscriptions/services/subscription-deletion.service.ts:237-245 | a reachable state with a superseded row that is still PENDING |
| SyncRevisions.SupersededOnlyWhenOutdated | rezeis-admin/src/modules/profile-sync/profile-sync.processor.ts:336-434 | superseding by revision needs a strictly newer projection, so it never drops the newest revision; a cause is rewritten only on a claimable versioned row that is superseded with it |
| SyncRevisions.WhoSupersedes | rezeis-admin/src/modules/profile-sync/profile-sync.processor.ts:336-434 | a row superseded by a step ends COMPLETED if and only if the step is not its subscription's deletion; unversioned rows are superseded by deletion alone, a DELETE never |
| SyncSafety.AppliedRevisionsWereConfirmed | rezeis-admin/src/modules/profile-sync/profile-sync.processor.ts:235-324 | the applied revision never exceeds the desired one, and the panel was read back with exactly the limits of that revision |
| SyncSafety.AppliedRevisionsOnlyGrow | rezeis-admin/src/modules/profile-sync/profile-sync.processor.ts:281-297 | along any run neither the desired nor the applied revision of a projection goes back, even with stale writers |
| SyncConvergence.QuiescentConvergence | rezeis-admin/src/modules/profile-sync/profile-sync.processor.ts:579-706 | over all interleavings of updates, edits, failures, crashes and sweeps: once no CREATE or UPDATE of a linked subscription is PENDING, RUNNING or FAILED, the panel holds every fingerprinted field of the row |
| SyncConvergence.SettlingStep | rezeis-admin/src/modules/profile-sync/profile-sync.processor.ts:594-706 | at every moment the panel agrees with the row or some unfinished job still owes a push, and each step keeps that |
| SyncConvergence.SyncedIffPushIsNoop | rezeis-admin/src/modules/profile-sync/profile-sync.processor.ts:890-903 | a push makes panel and row agree, and they agree exactly when another push would change nothing |
| SyncProgress.SoloUpdate | rezeis-admin/src/modules/profile-sync/profile-sync.processor.ts:59-148 | from any state, an undisturbed queued UPDATE has a run to COMPLETED that makes the panel agree with the row and changes nothing else |
| SyncProgress.ReclaimedWorkerCanUndoAPush | rezeis-admin/src/modules/profile-sync/profile-sync-queue.service.ts:164-194 | without dead reclaimed workers convergence fails: a run to a quiescent state without workers in which the panel differs from the row |
| SyncService.ConvergeUpdate | rezeis-admin/src/modules/profile-sync/profile-sync.processor.ts:594-706 | the loop reports success only when the row it pushed last is the row re-read afterwards, gives up after three changed rows, and hands over to CREATE as soon as the link or the profile is gone |
| SyncService.ProfileSyncTables.SupersedeIfStaleRevision | rezeis-admin/src/modules/profile-sync/profile-sync.processor.ts:336-366 | the worker stops exactly for a versioned job that is behind its projection or gives way to a queued DELETE, and the guarded row write records which |
| SyncService.ProfileSyncTables.Claim | rezeis-admin/src/modules/profile-sync/profile-sync.processor.ts:83-102 | the lease is granted exactly on a claimable row; then that row is held under it with one attempt more and no verdict, and no other row or column changes |
| SyncService.ProfileSyncTables.Complete | rezeis-admin/src/modules/profile-sync/profile-sync.processor.ts:120-142 | only the lease holder completes the row; no other row changes except open older siblings of its key, none of which is left; the same and newer revisions, other keys and unversioned rows are untouched |
| SyncService.ProfileSyncTables.RecordFailure | rezeis-admin/src/modules/profile-sync/profile-sync.processor.ts:174-223 | the fenced verdict, and an alert exactly when the last attempt persisted TERMINAL |
| SyncService.ProfileSyncTables.PersistProfileLink | rezeis-admin/src/modules/profile-sync/profile-sync.processor.ts:545-577 | links the profile and, unless the row is ACTIVE, leaves a DELETE of that profile in the same transaction |
| SyncService.ProfileSyncTables.CreateDeleteJobIfMissing | rezeis-admin/src/modules/profile-sync/profile-sync.processor.ts:783-814 | afterwards a DELETE of that target is open, every earlier row is as it was, and a row is added only if none was open |
| SyncService.ProfileSyncTables.EnsureDeleteJobIfDeleted | rezeis-admin/src/modules/profile-sync/profile-sync.processor.ts:732-759 | a subscription deleted during the call ends with an open DELETE of the profile just written, any other is left alone |
| SyncService.ProfileSyncTables.SweepPending | rezeis-admin/src/modules/profile-sync/profile-sync-queue.service.ts:93-104 | every queried row is enqueued once, in order, without force |
| SyncService.ProfileSyncTables.RecoverFailed | rezeis-admin/src/modules/profile-sync/profile-sync-queue.service.ts:128-162 | moves and force-enqueues, once each, exactly the candidates that are recoverable when it reaches them, and counts them |
| SyncService.ProfileSyncTables.ReclaimStale | rezeis-admin/src/modules/profile-sync/profile-sync-queue.service.ts:164-194 | reclaims a row only under the `startedAt` the query saw, and force-enqueues exactly the rows it changed |
| SyncSweeps.RecoveryIsRun | rezeis-admin/src/modules/profile-sync/profile-sync-queue.service.ts:142-162 | the whole FAILED pass is a run of single guarded recovery steps of the transition system |
| SyncSweeps.ReclaimIsRun | rezeis-admin/src/modules/profile-sync/profile-sync-queue.service.ts:168-194 | the whole stale pass is a run of single guarded reclaim steps |
| SyncRecovery.DriftTurnsTerminal | rezeis-admin/src/modules/profile-sync/profile-sync.processor.ts:968-1028 | schema drift is TERMINAL exactly from 30 minutes after `createdAt` on, unless its text sounds transient |
| SyncRecovery.VerdictNeverSoftens | rezeis-admin/src/modules/profile-sync/profile-sync.processor.ts:1009-1028 | one and the same error is never judged TERMINAL first and TRANSIENT later |
| SyncRecovery.HopelessJobSettles | rezeis-admin/src/modules/profile-sync/profile-sync-queue.service.ts:128-162 | a claimed job whose failures are all TERMINAL is never moved back to PENDING by any sweep and uses up at most the deliveries left |
| SyncRecovery.HopelessJobIsClaimedFinitelyOften | rezeis-admin/src/modules/profile-sync/profile-sync.processor.ts:174-196 | from the moment it is queued such a job is claimed at most five times, over any history of deliveries, failures and sweeps |
| SyncRecovery.LateDriftIsHopeless | rezeis-admin/src/modules/profile-sync/profile-sync.processor.ts:963-974 | a history of schema drift past the grace is such a history: no claim or sweep moves the anchor |
| AutoRenewCharging.ExactIffNextKeys | rezeis-admin/src/modules/auto-renew/auto-renew.service.ts:416-445 | along any run of overlapping cycles, stale reads, settlements and client renewals, the prefix query finds in every state exactly the attempts a1..ak, k at most three, if and only if each client key that starts like the epoch's is the owner's own for the next attempt |
| AutoRenewCharging.NoDoubleCharge | rezeis-admin/src/modules/auto-renew/auto-renew.service.ts:83-123 | along any such run at most one attempt of the epoch is PENDING or COMPLETED in every state, if and only if every client renewal under the next key, every charge that records an attempt and every late success of a given-up attempt finds all others spent |
| AutoRenewCharging.CalmIffSafe | rezeis-admin/src/modules/auto-renew/auto-renew.service.ts:231-261 | in every state of a run at most one attempt is live and no runner past its read can add a second, if and only if clients use the next key while all attempts are spent, and late successes come while all are spent and no such runner waits; charges themselves need no condition |
| AutoRenewCharging.CalmIff | rezeis-admin/src/modules/auto-renew/auto-renew.service.ts:231-261 | that state condition holds exactly when nothing the cycles go on to do, without clients and late successes, leaves two live attempts |
| AutoRenewCharging.RevivalSafeIff | rezeis-admin/src/modules/payments/services/payment-reconciliation.service.ts:152-176 | a late SUCCESS on a CANCELED or FAILED attempt never leads to two live attempts, whatever the cycles do next, if and only if all other attempts are spent and no runner past its read can still record one |
| AutoRenewCharging.CyclesAloneChargeOnce | rezeis-admin/src/modules/auto-renew/auto-renew.service.ts:83-123 | without client keys of the epoch and late successes, overlapping cycles never leave two live attempts, and never more than three at all |
| AutoRenewCharging.LateSuccessDoublesTheEpoch | rezeis-admin/src/modules/payments/services/payment-reconciliation.service.ts:152-176 | a run without any client: the first attempt is canceled, the second paid, the first then succeeds, and both are COMPLETED |
| AutoRenewCharging.ClientKeyDoublesTheEpoch | rezeis-admin/src/modules/auto-renew/auto-renew.service.ts:416-426 | any key of the epoch but the owner's first, used by a client between a cycle's read and its charge, leaves two payments of the epoch open |
| AutoRenewCharging.InvStep | rezeis-admin/src/modules/auto-renew/auto-renew.service.ts:231-261 | every step but a client's under a wrong key keeps "the matching rows are the first k attempts, and every runner past its read numbers one of them or the next", whatever statuses settlements write |
| AutoRenewCharging.ReadIsComplete | rezeis-admin/src/modules/auto-renew/auto-renew.service.ts:408-460 | in such an epoch the five-row read loses nothing: the number it reports is the number of attempts made, and it reports nothing open or paid exactly when all are spent |
| AutoRenewCycle.ReadAttemptState | rezeis-admin/src/modules/auto-renew/auto-renew.service.ts:431-459 | reports the largest attempt number among the rows, and whether any is PENDING or COMPLETED |
| AutoRenewCycle.EpochState | rezeis-admin/src/modules/auto-renew/auto-renew.service.ts:408-460 | on the rows a1..ak of one epoch, any such report says k and whether money is held or open |
| AutoRenewCycle.AutoRenewTables.MarkExpired | rezeis-admin/src/modules/auto-renew/auto-renew.service.ts:175-305 | charges exactly the rows with an attempt left, none open or paid, and a method when their turn comes, leaves all other attempts and methods alone, and expires exactly the rows that then have none open or paid and either three attempts or had nothing to charge |
| AutoRenewCycle.AutoRenewTables.ProcessAutopayCharges | rezeis-admin/src/modules/auto-renew/auto-renew.service.ts:55-168 | charges exactly the candidates with an attempt left, none open or paid, and a method when their turn comes, leaves everything else alone, and counts the paid, declined, open and untouched ones |
| AutoRenewCycle.PromiseKeptIff | rezeis-admin/src/modules/auto-renew/auto-renew.service.ts:170-174 | the verdict on a row is "nothing open or paid, and no method or three attempts" if and only if the row is not one that is charged in vain with attempts to spare while a charge from it on costs its user the method, all read off the tables before the call |
| AutoRenewCycle.RevokedRowStaysActive | rezeis-admin/src/modules/auto-renew/auto-renew.service.ts:272-289 | a run of the real passes on such a row: it stays ACTIVE |
| AutoRenewCycle.AutoRenewTables.ThreeCycles | rezeis-admin/src/modules/auto-renew/auto-renew.service.ts:225-290 | three calls on one table, every charge leaving a row, end with every due row expired, paid or open |
| AutoRenewKeys.AttemptRoundTrip | rezeis-admin/src/modules/auto-renew/auto-renew.service.ts:467-473 | a printed attempt key parses back to its attempt number |
| AutoRenewKeys.PrefixIsolation | rezeis-admin/src/modules/auto-renew/auto-renew.service.ts:416-445 | a prefix matches a key if and only if subscription and epoch are the same, for ids without a colon |
| AutoRenewWarnings.NotificationTable.CreateExpiryWarnings | rezeis-admin/src/modules/auto-renew/auto-renew.service.ts:312-373 | warns exactly the owners not warned in the last 20 hours, once each, and keeps any two warnings of one type to one user 20 hours apart |
| Ipv4.KeyIffTopBitsAgree | rezeis-admin/src/modules/anti-fraud/sharing-detection.util.ts:24-34 | two dotted quads get one key if and only if their top p bits agree, for every p from 0 to 32 |
| Ipv4.MaskRefinesModulo | rezeis-admin/src/modules/anti-fraud/sharing-detection.util.ts:30-32 | shift-and-mask refines `n - n mod 2^(32-p)`, both shift edge cases included |
| Ipv4.PackIsSum | rezeis-admin/src/modules/anti-fraud/sharing-detection.util.ts:30 | shifting and or-ing four octets is positional notation, below 2^32 |
| Ipv4.ShowInjective | rezeis-admin/src/modules/anti-fraud/sharing-detection.util.ts:33 | two networks print alike only if they are one network |
| Ipv4.ShorterPrefixMerges | rezeis-admin/src/modules/anti-fraud/sharing-detection.util.ts:24-34 | addresses sharing a key keep sharing one at any shorter prefix |
| Ipv6.ExpandIpv6 | rezeis-admin/src/modules/anti-fraud/sharing-detection.util.ts:37-61 | the loop computes the expansion the lemmas below are about |
| Ipv6.ExpandReadsBack | rezeis-admin/src/modules/anti-fraud/sharing-detection.util.ts:37-61 | eight 16-bit groups written in full or with any zero run compressed, in any letter case and with any leading zeros, expand to those groups normalised |
| Ipv6.SameExpansionIffSameAddress | rezeis-admin/src/modules/anti-fraud/sharing-detection.util.ts:54-59 | two well-formed texts expand alike if and only if they denote the same address |
| Ipv6.ExpandShape | rezeis-admin/src/modules/anti-fraud/sharing-detection.util.ts:54-60 | any result, from any text at all, is eight normalised groups of at most 0xffff |
| Ipv6.ExpandIsStable | rezeis-admin/src/modules/anti-fraud/sharing-detection.util.ts:37-61 | expanding the colon-joined expansion changes nothing |
| Ipv6.BracketsAndZoneDropOut | rezeis-admin/src/modules/anti-fraud/sharing-detection.util.ts:38-40 | brackets and a zone id, of any content, change nothing |
| Ipv6.KeyIffLeadingHextetsAgree | rezeis-admin/src/modules/anti-fraud/sharing-detection.util.ts:64-70 | two addresses share a key if and only if their leading hextets agree, the prefix rounded up |
| SharingDetection.CountDistinctNetworks | rezeis-admin/src/modules/anti-fraud/sharing-detection.util.ts:106-119 | the loop over two sets computes the larger family count, or the raw distinct count with grouping off |
| SharingDetection.CountIsFewestDevices | rezeis-admin/src/modules/anti-fraud/sharing-detection.util.ts:87-119 | m devices, each on at most one network per family, can explain the addresses if and only if m is at least the count |
| SharingDetection.Pigeonhole | rezeis-admin/src/modules/anti-fraud/sharing-detection.util.ts:97-104 | networks told apart by m devices are at most m |
| SharingDetection.OffenderIffUnexplained | rezeis-admin/src/modules/anti-fraud/sharing-detection.util.ts:184-191 | a subscription is an offender if and only if limit plus margin devices cannot explain its addresses |
| SharingDetection.ShorterPrefixesNeverRaise | rezeis-admin/src/modules/anti-fraud/sharing-detection.util.ts:24-70 | shortening either prefix never raises the count of well-formed addresses of both families |
| SharingDetection.SelectConcurrentSamples | rezeis-admin/src/modules/anti-fraud/sharing-detection.util.ts:142-157 | keeps, in order, the finite sightings from the cutoff on, the anchor being the newest sighting clamped to now |
| SharingDetection.WideningNeverLowersCount | rezeis-admin/src/modules/anti-fraud/sharing-detection.util.ts:142-157 | a window that reaches further never counts less |
| SharingDetection.NeverCountsMoreIff | rezeis-admin/src/modules/anti-fraud/sharing-detection.util.ts:148-156 | one window never counts more than another over any sightings if and only if it reaches no further, a window that is not finite reaching nowhere |
| SharingDetection.FastClockHidesNothing | rezeis-admin/src/modules/anti-fraud/sharing-detection.util.ts:134-137 | a sighting stamped in the future cannot push out one from within the window of now |
| Naming.SanitizeGivesSlug | rezeis-admin/src/modules/profile-sync/remnawave-profile-naming.service.ts:59-65 | every text becomes a slug: allowed characters, no double underscore, no outer separator |
| Naming.SanitizeKeepsSlug | rezeis-admin/src/modules/profile-sync/remnawave-profile-naming.service.ts:59-65 | a slug is left alone, so sanitising is idempotent |
| Naming.NewerSubscriptionRenamesNothing | rezeis-admin/src/modules/profile-sync/remnawave-profile-naming.service.ts:152-166 | appending a newer subscription changes no existing ordinal, hence no name |
| Naming.DistinctPanelNames | rezeis-admin/src/modules/profile-sync/profile-sync.processor.ts:1088-1104 | two subscriptions of one user share a clamped name if and only if both names are over-long, cut to one head and collide in the digest; in particular never when one fits |
| Naming.DefaultIsTelling | rezeis-admin/src/modules/profile-sync/remnawave-profile-naming.service.ts:46-50 | the default configuration meets the condition that theorem needs |
| Naming.ClampSettles | rezeis-admin/src/modules/profile-sync/profile-sync.processor.ts:1088-1104 | a clamped name has 3 to 36 characters, equals the name exactly when that fits, stays in the alphabet, and clamping again changes nothing |
| OwnerMarker.GenerateDescription | rezeis-admin/src/modules/profile-sync/remnawave-profile-naming.service.ts:132-142 | the text built by pushing lines reads back as the user's own if and only if the fields are legible, and is then adopted by that user alone |
| OwnerMarker.MarkerRoundTrip | rezeis-admin/src/modules/profile-sync/profile-sync.processor.ts:1117-1123 | reading a generated description gives back the id it was printed with, when no user field contains the marker |
| OwnerMarker.OwnerReadsBackIff | rezeis-admin/src/modules/profile-sync/profile-sync.processor.ts:1117-1123 | a description reads back as its own user's if and only if the first marker in the name, login or username that names anyone, by the id characters after it and any space, or by the next line's first word if the field ends there, names that user |
| OwnerMarker.OnlyItsUserMayLink | rezeis-admin/src/modules/profile-sync/profile-sync.processor.ts:1142-1153 | a profile with a generated description may be adopted by its own user and no one else, if and only if the fields are legible |
| OwnerMarker.MarkerInNameIsReadInstead | rezeis-admin/src/modules/profile-sync/profile-sync.processor.ts:1117-1123 | without that condition the round trip fails: a display name that spells a marker is what is read |
| OwnerMarker.TwoUsersMayShareAName | rezeis-admin/src/modules/profile-sync/remnawave-profile-naming.service.ts:104-116 | two users can be given one panel name, and the marker then keeps their profiles apart |
| RateCap.ErrorArchive.WriteErrorReport | rezeis-admin/src/common/services/error-report-archive.util.ts:56-65 | the counter follows the history of all calls, the call is let through as that history says, and no minute of an orderly history holds more than twice the cap |
| RateCap.WindowAdmitsAtMostCap | rezeis-admin/src/common/services/error-report-archive.util.ts:56-65 | over any nondecreasing call times every counting window admits at most the cap |
| RateCap.AnyMinuteAdmitsAtMostTwiceCap | rezeis-admin/src/common/services/error-report-archive.util.ts:30-31 | any closed 60-second interval admits at most twice the cap, also when callers pass different caps |
| RateCap.TwiceCapInOneMillisecond | rezeis-admin/src/common/services/error-report-archive.util.ts:10-12 | for every cap that bound is reached, within one millisecond |
| RateCap.OneWindowKeepsCap | rezeis-admin/src/common/services/error-report-archive.util.ts:56-65 | an interval within which no window opens after its start admits at most the cap |
| RateCap.MinuteKeepsCapIff | rezeis-admin/src/common/services/error-report-archive.util.ts:10-12 | from a given counter state, a minute admits at most the cap for all calls to come if and only if the open window outlasts it, or is full or over before it begins and the next one outlasts it |
| RateCap.OneCapKeepsMinuteIff | rezeis-admin/src/common/services/system-events.service.ts:969-974 | the same for calls that all ask for one cap, as its one caller does: the condition is unchanged from cap 2 on, and a cap of 1 is also kept in any minute that begins after the open window |
| Confidence.ComputeConfidence | rezeis-admin/src/modules/anti-fraud/confidence.util.ts:140-170 | the reduce and the detail loop compute the score and, per name, the detail of the last factor so named |
| Confidence.ScoreWithinBounds | rezeis-admin/src/modules/anti-fraud/confidence.util.ts:150 | the result lies between 5 and the rounded, clamped ceiling |
| Confidence.FullEvidenceGivesCeiling | rezeis-admin/src/modules/anti-fraud/confidence.util.ts:140-150 | full strengths and full data quality give the ceiling itself, over any list of factors |
| Confidence.ScoreMonotone | rezeis-admin/src/modules/anti-fraud/confidence.util.ts:140-150 | stronger factors or better data never lower the result |
| Confidence.ScoreIgnoresOrder | rezeis-admin/src/modules/anti-fraud/confidence.util.ts:144-147 | the order of the factors is irrelevant |
| Confidence.RatioStrengthMonotone | rezeis-admin/src/modules/anti-fraud/confidence.util.ts:124-132 | strengths lie within 0 and 1 and never fall as the measurement grows, thresholds that are not finite included |

## Left out

- Confidence.ScoreMonotone: over exact reals; JavaScript's floating-point rounding is not modelled.
- Naming.SanitizeGivesSlug: on ASCII; NFKD normalisation of other text is not modelled.
- Naming.DistinctPanelNames: SHA-256 is an arbitrary function to ten lower-case hex characters, so a digest collision is part of the statement rather than excluded; ordinals are below 10^9.
- SyncConvergence.QuiescentConvergence: writers that correct a row without queueing a job are not modelled: the squad propagation for a subscription that is not pushable, and the self-heal of the expired-profile cleanup (`expired-profile-cleanup.service.ts:228-240`), which takes over the panel's `expiresAt` and may set ACTIVE; the status flag, contacts and description text of the PATCH are not part of the compared fields; a CREATE that adopts an existing profile pushes no limits, so the claim starts from a linked subscription.
- SyncSafety.AppliedRevisionsWereConfirmed: the projection's `state`, observed columns and the DRIFTED write are not modelled, only the revision numbers and limits.
- AutoRenewCycle.AutoRenewTables.MarkExpired: states the decision with no outside writer during the call; the bulk update is not fenced on `expiresAt`.
- AutoRenewWarnings.NotificationTable.CreateExpiryWarnings: for cycles that run one after another; overlapping cycles can both warn.
- Ipv4.KeyIffTopBitsAgree: for dotted quads of decimal digits; other text that `parseInt` tolerates follows the code but has no theorem.
- Ipv6.ExpandReadsBack: addresses with an embedded IPv4 part are not covered.
- SyncRecovery.HopelessJobIsClaimedFinitelyOften: queue deliveries are counted, not scheduled; backoff and queue timing are not modelled, nor is the operator's retry, which requeues any FAILED row as often as it is pressed.
- SyncSafety.NeverCrossLinked: a user's later change of login or username, which would rename the profile, and the merge of two accounts are not modelled.
- AutoRenewCharging.NoDoubleCharge: a subscription's owner never changes; add-on purchases, which share the key column but not the purchase type the read asks for, are not modelled; a settlement may write any status, which allows more than the reconciliation and the pending sweep do.
- HTTP, Prisma, BullMQ, Redis and Telegram transport: replaced by guarded row updates and unconstrained outcomes.
- The month-rolling reset anchor (`stampMonthRollingAnchor`), event cards and log lines: no guarded row depends on them.
- `ipNetworkKey` and `parsePanelId`: single-branch helpers that nothing modelled here calls.
- Expired-profile cleanup, backup delivery, currency rates and the other services of the repository.
