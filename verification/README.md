# Stillyard: verified models of its durable protocols

Stillyard schedules work on one machine and must never mistake lost or half-written
history for free capacity. This project models the parts of it that carry that
promise and proves them over every run, crash and interleaving:

- **The durable authority** (`src/authority.rs`). A registry on disk holds holds,
  Grants, native starts, participants and a reset gate. `AuthorityOps` gives each
  operation as a decision over the registry. `AuthorityDisk` gives loading, the byte
  budget and the publication protocol with every directory state a crash can leave.
  `AuthorityProcess` is the mutable object that performs the effects one by one.
  `AuthorityRuns` proves that runs with I/O errors and crashes anywhere refine atomic
  updates; `AuthorityTheorems`, `AuthorityKeys`, `AuthorityCrashTheorems` and
  `AuthorityBudget` state safety over those runs.
- **The coordinator's database beside the journal** (`src/store/machine_allocation.rs`,
  `src/store/machine_recovery.rs`, `src/store/machine_reset.rs`): transaction, prepare, SQL
  commit, finish and recovery with a crash between any two, the loss of the database and its
  rebuilding under a reset gate, in `MachineStore` and `MachineStoreTheorems`.
- **Admission and reservations** (`src/admission.rs`): ranking with aging, checked
  sums, the reservation decision, scheduler runs built from it, and blocker lists.
- **The client's durable operations** (`src/client.rs`): the receipt file, the
  submission protocol of several processes over one file, and the wait stream.
- **The bootstrap protocol** (`src/bootstrap.rs` and its Linux supervisor): launchers,
  supervisors, children, cgroups, exclusive files and reboots, composed with the
  authority's own operations.
- **Two smaller protocols**: the resumable image-pin rotation and the bounded frame
  codec.

Modelling conventions. Identifiers are natural numbers, 0 is nil. Digests are modelled
by the value they digest, so they are collision free. Encoded lengths are functions of
the value, given by `Sizes`; encoders of the wire format are a faithful `Codec`. Fresh
ids, clocks, reason texts, I/O faults and the answers of other programs are arguments.
An atomic file replacement is one step; a process may die between any two. 64-bit
saturation and overflow are written out where the source has them. A dead authority
process is an authority in state Unknown: only reopening does anything.

## What was found

These promises hold only under a condition, which is stated exactly in each case.

- The authority does not compare a commit's Grant snapshots with the record. A mismatched
  release or a rebound Grant id leaves a key neither bound nor retired
  (`MismatchedReleaseFreesKey`, `RebindingFreesKey`, `KeyStaysAccountedIff`).
- The authority journals an acknowledgement that reaches its own sequence; it can never
  finish and closes admission for good (`JournaledCommitFinishesIff`,
  `UnfinishableCommitIsJournaled`).
- Neither happens with the authority's only caller, on whose guards it relies: the store
  loads a released Grant by its key and compares its id
  (`src/store/machine_allocation.rs` lines 324-325), and it accepts only the next sequence
  and an acknowledgement up to the accepted one (lines 144 and 608). `StoreCommitsAreSafe`
  and `StoreKeysStayAccounted` prove that this suffices.
- A replayed acknowledgement older than the last accepted operation is journaled again. If
  the process dies before its finish, recovery takes journal and database to disagree and
  records a reset (`RecoveryDisagreesIff`, `CutExchangeGatesIff`, `LostReplayGatesFreshStore`).
- A rebuild drops the row of a key whose release was finished. The key still gains no right,
  because the gate and then the new epoch stand in its way (`ReleasedKeyNeverReturns`).
- The first request of an ensure call may name another store or parent than its file,
  since the context is looked up again (`SendMatchesFileIff`, `EnsuredSendCanDiffer`).
- The receipt update itself would store Unknown on an undecided file; only the recovery
  path filters it (`UnknownStoredIff`, `ReceiptOnlyAdvances`).

## Model

| member | source | states |
|---|---|---|
| `AuthorityRuns.LoadRecovers` | src/authority.rs:927-1024 | Reopening a directory that records a registry yields exactly that registry, its pending commit recovered from the blob it names; partner of every publication |
| `AuthorityRuns.PruneKeepsRecord` | src/authority.rs:1338-1371 | Orphan pruning, stopped after any removal, never takes the blob the durable registry names |
| `AuthorityRuns.PublicationIsCrashSafe` | src/authority.rs:1397-1431 | Every crash point and I/O error of a publication leaves exactly the old or exactly the new registry recorded, the new one for good once registry.json is replaced; memory never claims more than the directory holds |
| `AuthorityRuns.OpenIsCrashSafe` | src/authority.rs:900-925 | The same for opening, which may upgrade a legacy registry and prune |
| `AuthorityRuns.InitializationIsCrashSafe` | src/authority.rs:1137-1180 | A first initialization cut anywhere leaves no registry or the empty one under its own anchor |
| `AuthorityRuns.EventRefines` | src/authority.rs:1373-1431 | One call, returning or dying anywhere, leaves the durable registry alone or applies its operation whole, and keeps the invariant |
| `AuthorityRuns.CrashRunsRefineAtomicRuns` | src/authority.rs:900-1431 | Every run with errors and crashes has the durable effect of running, atomically and in order, exactly the operations that became durable |
| `AuthorityRuns.RunsKeepInv` | src/authority.rs:900-1431 | Every state of every run, from an empty directory on, is blank, half initialized or records a good registry, and ready memory agrees with it |
| `AuthorityInvariants.AdmitGrantsKeepsUnique` | src/authority.rs:440-463 | Journaling any list of Grants never gives one allocation key two Grants |
| `AuthorityInvariants.AdmitGrantsFencesRetired` | src/authority.rs:440-463 | A retired key gains no right from any list of Grants |
| `AuthorityInvariants.GoodKept` | src/authority.rs:289-1336 | Every operation keeps the whole registry invariant and the anchored identity, so whatever is published loads again |
| `AuthorityCrashTheorems.DamagedHistoryIsNeverEmpty` | src/authority.rs:927-1024 | Losing or tearing any one recorded file reads as unknown history: nothing is admitted and initialization refuses |
| `AuthorityTheorems.GrantLeavesOnlyByRelease` | src/authority.rs:467-502 | Over every run a Grant id leaves the permission table only by finishing a journaled commit that marks it Released |
| `AuthorityCrashTheorems.GrantsSurviveCrashes` | src/authority.rs:467-502 | The same over runs with crashes and reopens |
| `AuthorityTheorems.PendingWasJournaled` | src/authority.rs:396-465 | Whatever is pending was journaled by a prepare of exactly that commit |
| `AuthorityKeys.KeyStaysAccountedIff` | src/authority.rs:410-502 | Over every run without a compaction of the key or an epoch rotation, a granted key is at all times bound to its Grant, or retired and bound to none, if and only if no admitted commit rebinds its Grant id and every finish that removes its Grant names its key among the released ones |
| `AuthorityKeys.CheckedKeyIsNeverGrantedAgain` | src/authority.rs:410-502 | One check at prepare suffices: if the snapshots of a Grant id carry one key, the recorded one if the id is recorded, then over every run a granted key stays bound to its Grant or is retired with no Grant |
| `AuthorityKeys.CheckedKeySurvivesCrashes` | src/authority.rs:410-502 | The same over runs with errors, crashes and reopens |
| `AuthorityKeys.MismatchedReleaseFreesKey` | src/authority.rs:467-502 | First failing run: a release whose snapshot names another key frees the recorded key, which is granted again with no compaction or reset |
| `AuthorityKeys.RebindingFreesKey` | src/authority.rs:440-463 | Second failing run: a commit rebinds a recorded Grant id to another key, every release names the recorded key, and the first key is granted again |
| `AuthorityKeys.FinishFencesRecordedKeysIff` | src/authority.rs:467-502 | A finish retires the recorded key of every Grant it removes if and only if each such key is already retired or is the key of some snapshot the commit marks Released |
| `AuthorityKeys.RetiredKeyStaysFenced` | src/authority.rs:517-533 | A retired key stays retired and gets no new rights over any run without its compaction or an epoch rotation |
| `AuthorityCrashTheorems.RetiredKeySurvivesCrashes` | src/authority.rs:517-533 | The same over runs with crashes and reopens |
| `AuthorityTheorems.JournaledCommitFinishesIff` | src/authority.rs:467-502 | A journaled commit can finish if and only if its acknowledgement stays below its own sequence |
| `AuthorityTheorems.UnfinishableCommitBlocksForever` | src/authority.rs:467-502 | One that cannot stays pending over every run and keeps admission closed |
| `AuthorityTheorems.UnfinishableCommitIsJournaled` | src/authority.rs:404-465 | Such a commit is journaled by a prepare of a live session, and no run after it ends it |
| `AuthorityCrashTheorems.UnfinishableCommitSurvivesCrashes` | src/authority.rs:467-502 | It stays pending and admission closed through crashes and reopens |
| `MachineStore.CommittedRightsAreJournaled` | src/store/machine_allocation.rs:269-288 | At every point of every run of the coordinator's database beside the journal, whatever died between prepare, SQL commit and finish, and with the database lost, replaced and rebuilt, each right the database has committed is in the permission table |
| `MachineStore.RebuiltRowsAreSound` | src/store/machine_reset.rs:83-189 | The rebuild under a reset gate makes every recorded permission a row again under its key and Grant id, with the pending snapshots in place; no row is a right the authority does not record, and no two rows collide |
| `MachineStoreTheorems.RebuildCompletes` | src/store/machine_reset.rs:31-189 | Rebuild and one finish complete the pending commit under a gate, from no database at all if need be, and every remaining permission is an unreleased row |
| `MachineStoreTheorems.StoreCommitsAreSafe` | src/store/machine_allocation.rs:304-335 | Every commit the store journals passes the check at prepare and can finish: the two conditions above are met by this caller |
| `MachineStoreTheorems.StoreKeysStayAccounted` | src/store/machine_allocation.rs:118-302 | Hence over every run of the store, with crashes anywhere and its database rebuilt, a granted key is bound to its Grant, or retired with no Grant, until its compaction or an epoch rotation |
| `MachineStoreTheorems.ReleasedKeyNeverReturns` | src/store/machine_reset.rs:97-101 | A key the database holds as released gets no new right in any run: not after its compaction, not after its row is lost or left out of a rebuild, not after a rotation to another epoch; the row itself stays until the database is rebuilt or replaced |
| `MachineStoreTheorems.SpentIsNotListed` | src/store/machine_allocation.rs:434-438 | What stands in for the row once it is gone: the gate closes admission to new rights, and after it no session owns a key of an earlier epoch |
| `MachineStoreTheorems.RecoveryDisagreesIff` | src/store/machine_recovery.rs:36-48 | Recovery finds journal and database in disagreement, and closes admission, if and only if the journaled operation is a recorded acknowledgement without Grants that its domain has since moved past |
| `MachineStoreTheorems.CutExchangeGatesIff` | src/store/machine_allocation.rs:262-279 | Known before the call: an exchange that dies before its SQL commit makes the next recovery close admission if and only if its live session repeats an acknowledgement the database holds and its domain has moved past |
| `MachineStoreTheorems.LostReplayGatesFreshStore` | src/store/machine_allocation.rs:262-279 | Such a run from an empty store: acknowledge, another operation, replay of the acknowledgement, crash, recovery |
| `MachineStoreTheorems.RecoveryCompletes` | src/store/machine_recovery.rs:6-131 | Otherwise recovery and one finish complete the operation, receipt and Grants included, whichever step was lost |
| `MachineStore.FinishedTable` | src/store/machine_allocation.rs:281-288 | A finish after the SQL commit removes no right the database holds |
| `MachineStore.FreshStoreIsSound` | src/store/machine.rs:33-64 | The invariant of these runs holds of an empty store beside a bound authority |
| `AuthorityTheorems.GateSurvives` | src/authority.rs:848-896 | Over every run without a completed reset, a pending reset and the predecessor it names do not change |
| `AuthorityTheorems.OnlyCompletedResetOpensGate` | src/authority.rs:709-772 | The gate opens only by the completion of a reset whose obligations were all clear and whose preview was current; it leaves admission open, every obligation class empty, every session fenced and the anchor identity untouched |
| `AuthorityTheorems.AnchorOutlivesResets` | src/authority.rs:964-971 | The immutable anchor validates the registry after any number of resets |
| `AuthorityCrashTheorems.GateSurvivesCrashes` | src/authority.rs:837-896 | A pending reset survives crashes, reopens, rebinds and new stores, and admission stays closed throughout |
| `AuthorityCrashTheorems.NativeStartsStayCurrent` | src/authority.rs:289-394 | In every reachable state each native start names the current epoch, native domain and covered store, the covered store is the coordinator's, and no key has two Grants |
| `AuthorityCrashTheorems.HoldSurvivesCrashes` | src/authority.rs:1182-1262 | Without a release of that very hold, no run with crashes and resets changes it or opens admission |
| `AuthorityTheorems.ParticipantsOnlyAdvance` | src/authority.rs:580-704 | Over every run a participant's retired floor, accepted sequence and connection epoch never decrease, the floor never passes the accepted sequence and the participant never disappears |
| `AuthorityCrashTheorems.ParticipantsAdvanceThroughCrashes` | src/authority.rs:580-704 | The same over runs with crashes and reopens |
| `AuthorityTheorems.ReservedEpochsIncrease` | src/authority.rs:580-606 | Of two published reservations of one domain in any run, the later epoch is strictly larger; it exceeds SQL's and fits in 63 bits |
| `AuthorityCrashTheorems.EpochsIncreaseThroughCrashes` | src/authority.rs:580-606 | Two durable reservations with any run between them, crashes included, never share an epoch |
| `AuthorityCrashTheorems.NoOlderCommitThroughCrashes` | src/authority.rs:410-430 | Once a session is durably accepted, no run with crashes and reopens journals a commit of an older one |
| `AuthorityTheorems.NoCommitFromOlderSession` | src/authority.rs:410-430 | Once a session is accepted, no later run journals a commit of an older one; without a reset between, only that session or a newer one can |
| `AuthorityTheorems.SessionsStayCurrent` | src/authority.rs:608-645 | Over every run, resets included, every accepted session names the current authority epoch |
| `AuthorityTheorems.PairingsStayDistinct` | src/authority.rs:774-833 | Over every run no two participants share a manager store or a pairing nonce |
| `AuthorityBudget.CeilingNeverGrows` | src/authority.rs:1373-1395 | Over every run the larger of the file limit and (encoded size + reserved bytes) never grows |
| `AuthorityBudget.ReleaseRefusedOnlyByFileLimit` | src/authority.rs:1373-1395 | A release adding at most 64 KiB is refused by the budget if and only if the result exceeds the file limit itself |
| `AuthorityBudget.ReleaseShrinksObligations` | src/authority.rs:25-49 | A release frees its reserved bytes and never grows the admission bytes, whatever order holds are encoded in |
| `AuthorityBudget.ReleaseAlwaysAffordable` | src/authority.rs:1373-1450 | From a registry within budget, after any run with crashes, the budget never refuses such a release |
| `AuthorityBudget.RefusedPublicationChangesNothing` | src/authority.rs:1397-1402 | A publication the budget refuses leaves the directory as it was, even if the process dies in it |
| `AuthorityProcess.Authority.Open` | src/authority.rs:900-925 | The object after opening and every crash point passed equal the specified attempt |
| `AuthorityProcess.Authority.Initialize` | src/authority.rs:1137-1180 | The object after initialization and every crash point equal the specified attempt |
| `AuthorityProcess.Authority.PruneMachineBlobs` | src/authority.rs:1338-1371 | The loop removes exactly the listed blobs the registry does not name, in listing order |
| `AuthorityProcess.Authority.Publish` | src/authority.rs:1397-1431 | Memory, directory and every crash point follow the specified publication: blob, registry file, cleanup |
| `AuthorityProcess.Authority.PrepareMachineCommit` | src/authority.rs:396-465 | The loop over the Grants journals exactly what the specification admits |
| `AuthorityProcess.ReleaseGrants` | src/authority.rs:474-485 | The loop removes exactly the Grants marked Released and retires exactly their keys |
| `AuthorityProcess.Authority.FinishMachineCommit` | src/authority.rs:467-502 | The loop removes and retires exactly what the specification says |
| `AuthorityProcess.Authority.RetireNativeStarts` | src/authority.rs:374-394 | The loop retires exactly the proven native starts |
| `AuthorityProcess.Authority.CompleteMachineReset` | src/authority.rs:709-772 | The loop fences every session and publishes the specified registry |
| `AuthorityProcess.Authority.Apply` | src/authority.rs:289-1336 | Any operation follows its specification, and from a recorded good registry each of its crash points records the old or the new one |
| `Ranking.OutranksIsStrictTotalOrder` | src/admission.rs:332-342 | The scheduling order is irreflexive, transitive and total on distinct rows |
| `Ranking.FullyAgedIff` | src/admission.rs:324-330 | A job reaches the top priority if and only if it has waited the missing number of quanta, saturation and clock steps included |
| `Ranking.FullyAgedJobIsNeverOvertaken` | src/admission.rs:324-342 | From then on it outranks every later-accepted job at all later times |
| `Ranking.HeadStartDecidesIff` | src/admission.rs:324-342 | Two jobs are ordered for good if and only if the head start covers the priority difference in whole quanta |
| `Admission.CheckedTotalIsExact` | src/admission.rs:276-278 | The checked fold is the exact sum, or fails exactly when the sum leaves 64 bits |
| `Admission.FitsIsAddition` | src/admission.rs:366-433 | With 64-bit capacities, fitting is plain addition |
| `Scheduler.CapacityIsNeverExceeded` | src/admission.rs:366-433 | In every scheduler run the granted sum and the reserved sum stay within the capacity of every resource |
| `Scheduler.OverflowGuardIsUnreachable` | src/admission.rs:366-433 | Hence the overflow guard of the decision never fires |
| `Scheduler.UnreservedGrantLeavesReservedRoom` | src/admission.rs:366-433 | An unreserved grant leaves all live reservations their room |
| `Scheduler.ReservationIsHonoured` | src/admission.rs:366-433 | A reservation holder is granted, before its deadline, once the work active at its creation has left, whatever unreserved or lower-ranked work was scheduled, unless a better-ranked overlapping reservation stands |
| `Scheduler.ConvertedDoesNotOverlap` | src/store/reservation.rs:253-420 | A reservation converted past a holder either outranks it or claims nothing it claims |
| `Compatibility.CompatibleIsSymmetric` | src/admission.rs:53-82 | Fence and impact conflicts do not depend on who is asked |
| `Compatibility.BothScalarRulesMeanFits` | src/admission.rs:198-274 | The ordinary and the ancestor rule both block a key exactly when it does not fit, and tell an impossible request apart |
| `Compatibility.ScalarBlockers` | src/admission.rs:243-274 | The list is exactly the blocked keys, empty if and only if the whole vector fits |
| `Compatibility.NonScalarBlockers` | src/admission.rs:53-82 | The loops collect exactly the fence and impact clashes with some active claim |
| `Compatibility.Blockers` | src/admission.rs:27-82 | No blocker if and only if the vector fits and every active claim is compatible |
| `Compatibility.AncestorBlockers` | src/admission.rs:118-164 | No ancestor blocker if and only if the child would be unblocked with only its ancestors active |
| `Compatibility.AncestorBlockIsPermanent` | src/admission.rs:118-164 | A child blocked by its ancestors is blocked in every state that still holds them |
| `Compatibility.ActiveSetsStayCompatible` | src/admission.rs:53-82 | Admitting only unblocked claims keeps every reachable active set pairwise compatible |
| `ResultFile.SameTerminalDecisionIsEquivalence` | src/client.rs:3086-3114 | On terminal decisions, ignoring volatile fields is an equivalence; nothing else is related to itself |
| `ResultFile.ReceiptFile.PersistReceipt` | src/client.rs:3035-3084 | One locked update replaces the file exactly as specified and never moves its decision backward |
| `ResultFile.UnknownStoredIff` | src/client.rs:3035-3084 | The bare update stores Unknown if and only if the file is undecided and of the same operation, and then no decision could ever replace it; only the recovery filter prevents this |
| `ResultFile.ReceiptOnlyAdvances` | src/client.rs:2995-3114 | Over any interleaving of callers the decision never moves backward, a terminal decision is never replaced, Unknown is never stored, the identity never changes |
| `SubmitProtocol.UnmanagedFileSubmitsAtMostOnce` | src/client.rs:447-604 | Over every interleaving of submit and ensure calls and deaths, an unmanaged file leads to at most one Submit request, and any file to at most one that is not an authorized resend |
| `SubmitProtocol.ResendsFollowRecordedNotReceived` | src/client.rs:2920-2993 | Every resend was preceded by a moment at which the file held `NotReceived` for the identical key, payload, endpoint, store and managed parent |
| `SubmitProtocol.EverySendIsRecordedFirst` | src/client.rs:223-320 | No request leaves before the file exists, and each carries its key, payload and endpoint |
| `SubmitProtocol.SendMatchesFileIff` | src/client.rs:223-320 | After every run, the next request of any process names the file's store and parent if and only if it is not an ensured first request or its second context lookup answers what the file records |
| `SubmitProtocol.EnsuredSendCanDiffer` | src/client.rs:447-604 | A run in which an ensured first request names another store than its file |
| `SubmitProtocol.RunsKeepInv` | src/client.rs:2805-2865 | Every event keeps the protocol invariant, and the file's identity never changes |
| `WaitStreams.Worst` | src/client.rs:2276-2287 | The result is one of the outcomes and none is worse; absent exactly when there is none |
| `WaitStreams.PageNamesCandidates` | src/store/observation.rs:269-448 | A page of events names every unsettled member whose final event it passes |
| `WaitStreams.WaitStream.Settle` | src/client.rs:2147-2154 | A settled Job is added once, with its item and its outcome |
| `WaitStreams.WaitStream.RefreshSettlements` | src/client.rs:2131-2168 | The loop leaves no unsettled Job final at or before the cursor, settles no Job twice and closes the stream exactly when it has enough |
| `WaitStreams.WaitStream.NextItem` | src/client.rs:2171-2220 | Each item is delivered once; between items no settlement is lost although the daemon appends events concurrently; the stream ends only after the aggregate or a failed call |
| `WaitStreams.WaitStream.EndedStreamReportedEverything` | src/client.rs:2171-2220 | A stream that ended without failing delivered one true settlement per settled Job and then one aggregate with their worst outcome; it settled every Job, or one for `any` |
| `WaitStreams.WaitStream.CaughtUpStreamIsClosed` | src/client.rs:2131-2168 | Once the cursor has passed the final event of every Job, the aggregate is due |
| `WaitStreams.OpenWaitStream` | src/client.rs:1333-1382 | Opening establishes the invariant, and fails only on an oversize membership or a failed call |
| `Bootstrap.UserCodeStartsAtMostOnce` | scripts/wsl-bootstrap-supervisor.py:85-211 | In every run with crashes, reboots and replays anywhere, user code starts at most once per operation, after a durable hold for exactly this request and a durable release intent |
| `Bootstrap.ProofMeansQuiet` | scripts/wsl-bootstrap-supervisor.py:178-211 | A proof on disk or in the authority means the boundary is empty and removed, the root reaped and nothing of the operation can act |
| `Bootstrap.HoldOutlivesUserCode` | scripts/wsl-bootstrap-supervisor.py:85-211 | Unless an operator forces it, the hold stays unreleased while user code can act and is released only after the boundary is empty and removed and the root reaped |
| `Bootstrap.QuietForever` | scripts/wsl-bootstrap-supervisor.py:202-211 | After the proof is published no user code ever starts again and the proof never changes |
| `Bootstrap.LostSupervisorNeverSeals` | scripts/wsl-bootstrap-supervisor.py:85-99 | Once the claiming supervisor is gone without a proof, no replay, restart or reboot ever seals the hold |
| `Bootstrap.InspectionIsComplete` | scripts/wsl-bootstrap-supervisor.py:64-82 | In every reachable state the inspector answers exactly when the proof exists, with a proof the authority accepts |
| `Bootstrap.ReconcileSealsIff` | src/bootstrap.rs:106-122 | Reconciling an unreleased hold releases it, with that very proof, if and only if the proof exists |
| `Bootstrap.HoldEffect` | src/authority.rs:1232-1336 | No authority operation forgets, rebinds or alters a released hold; only its own seal gives it a proof, and without one it is released only by force |
| `Bootstrap.CleanUpKeeps` | scripts/wsl-bootstrap-supervisor.py:178-211 | The cleanup block publishes the proof last, when the boundary is empty and removed and the root reaped |
| `Bootstrap.IntentPrecedesRelease` | scripts/wsl-bootstrap-supervisor.py:148-160 | The release byte is written only after the durable release intent |
| `Bootstrap.NewcomerKeeps` | scripts/wsl-bootstrap-supervisor.py:85-99 | A supervisor takes the free claim or ends without an effect |
| `Bootstrap.LauncherKeeps` | src/bootstrap.rs:67-122 | Every launcher step keeps the invariant: it launches only under an acknowledged hold and carries only the proof on disk |
| `Bootstrap.UndisturbedOperationSeals` | scripts/wsl-bootstrap-supervisor.py:85-211 | Left alone, an operation does start its user code and ends in a sealed proof carrying the root's exit code, with every stage in the source's order |
| `Bootstrap.RunsKeepInv` | scripts/wsl-bootstrap-supervisor.py:85-264 | Every run keeps the protocol invariant |
| `PinRotation.Installation.CommitRotation` | scripts/rotate-wsl-bridge-pin.py:28-48 | The database row is replaced before the anchor, each as one crash point, and nothing is written when a check fails |
| `PinRotation.Installation.Rotate` | scripts/rotate-wsl-bridge-pin.py:102-202 | One invocation passes exactly the specified crash points |
| `PinRotation.RotationsStayRecoverable` | scripts/rotate-wsl-bridge-pin.py:163-202 | Over any invocations with any arguments, interrupted anywhere, a split pair always has its intent on disk and nothing but the image digest changes |
| `PinRotation.RotationShowsOnlyThreePairs` | scripts/rotate-wsl-bridge-pin.py:28-48 | At every crash point of a rotation resumed any number of times, (SQL, anchor) is (old,old), (new,old) or (new,new) |
| `PinRotation.ResumeCompletes` | scripts/rotate-wsl-bridge-pin.py:125-202 | Resuming with the digests of the retained intent reaches (new,new) from every interrupted state and archives the intent |
| `PinRotation.CompletesIffAdmitted` | scripts/rotate-wsl-bridge-pin.py:103-197 | From any state an invocation completes if and only if its checks pass and the service stops; a failed check writes nothing |
| `Frames.WriteFrame` | src/machine.rs:622-643 | However the serializer splits its output, a value within the bound is framed whole and an oversize one emits no byte |
| `Frames.ReadFrame` | src/machine.rs:609-621 | The reader takes exactly one frame, and a bad length consumes only its prefix |
| `Frames.LengthOfPrefix` | src/machine.rs:609-643 | The little-endian prefix of every admissible length reads back as that length |
| `Frames.FrameRoundTrip` | src/machine.rs:609-643 | A written value reads back and leaves exactly what followed it |
| `Frames.StreamRoundTrip` | src/machine.rs:609-643 | Any sequence of written values reads back as the same sequence with nothing left over |
| `Frames.CutStreamReadsPrefix` | src/machine.rs:609-621 | A stream cut anywhere yields a prefix of the values written and never another value |

## Left out

- Domain retirement and its clearance preview (`src/authority/retirement.rs`, `domain_clearance_preview`): not a step of the modelled runs.
- Byte-level JSON, SHA-256, HMAC and UUID text: replaced by injective values, so malformed text appears only as unreadable or torn files.
- String checks of bootstrap descriptors and proofs (absolute paths, NUL, cgroup path shape, boot id syntax): `ValidBinding` and `ValidProof` keep the identity, hash, phase, inode and timeout checks.
- Text, order and detail of blockers and error messages: a blocker list is the set of its blockers.
- The supervisor and the `run` loop are not sequential methods but one step function per effect, because any process may die between two effects; polling and draining loops are steps that may repeat, and log forwarding, heartbeats and the nested test cgroup are not modelled.
- Killing the cgroup is not an effect of the model: tasks exit at any time, and the supervisor waits until none is left. Progress of that wait is not claimed.
- A user task leaving its cgroup, and other writers in the operation's directory: assumed away by the sandbox the supervisor sets up.
- HoldOutlivesUserCode: every seal comes from a modelled launcher, which carries the proof on disk. The daemon also accepts a seal from an authenticated bridge outside a managed Job (`src/daemon/rpc.rs` lines 273-295), with any proof that passes `validate_proof`; such a caller is trusted, not modelled. The other `Bootstrap` theorems share this.
- One operation at a time is followed in `Bootstrap`; the authority serves every other operation in between.
- Batch submissions share the receipt file rules but have no protocol of their own here.
- The payload-mismatch answer and other read-only replies of ensure calls: they neither write the file nor send a Submit.
- Wait streams over a store that was replaced meanwhile: the daemon's history is one log.
- Liveness of the wait stream beyond the answers it gets: a daemon that stops answering ends it with an error.
- Scheduler runs with changing capacities, machine-wide reservations and memory observations: the runs keep one configuration.
- Scheduler runs let time only advance; the source reads the wall clock, so a clock set back within a run is not covered. `Ranking` covers any clock reading.
- ReservationIsHonoured: "granted" is the scalar decision; fences, impacts and conditions may still withhold the job.
- A coordinator database rolled back to an older copy of itself, and the registration of newly paired domains in it: `MachineStore` follows a database that is kept, or lost and replaced by an empty one. Tickets, claims, clocks, native quiescence and snapshot pages are folded into `detail` or into when an event happens; the sequence checkpoints a rebuild makes at the authority are operations of their own.
- `src/admission/scoped.rs` key scoping: resources are plain keys.
- Service stop and restart, evidence files and locks of the pin rotation: answers of the environment.
- I/O errors of the frame writer after the bound is checked, and `Request::validate`: single-branch checks.
- Authority status snapshots, storage-budget reports and doctor output: read-only views.
