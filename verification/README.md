# Rollout barrier and client upgrade: a verified model

PrismaBuild moves a fleet of build hosts from one sealed generation to the next. Each host
runs a small privileged agent. A rollout epoch is a directory of write-once markers: hosts
say that they have drained, rotated, rolled back and resumed, and a coordinator decides to
activate, roll back, resume and finish. In between, each agent replaces its own privileged
client files in a journaled transaction that must survive a crash at any point.

This project models that protocol, the transaction, the identity proofs both rest on, and
two repository tools, and proves what they promise.

| file | about |
|---|---|
| `Broker.dfy` | the maintenance gate: who may open and close a drain |
| `MarkerNames.dfy`, `Epoch.dfy`, `EpochFiles.dfy` | marker names, the intent, marker and snapshot validators, the directory reader |
| `Fleet.dfy` | the fleet as a state machine of small steps |
| `FleetInvariant.dfy`, `FleetSteps.dfy` | its invariant on markers, records and releases, kept by every step |
| `FleetGates.dfy` | what stays shut, and exactly when |
| `FleetTheorems.dfy` | the theorems over all runs |
| `FleetPaths.dfy`, `FleetLimits.dfy`, `FleetStranding.dfy` | runs that show where promises end, and exactly when they hold |
| `ClientFiles.dfy`, `Client.dfy` | client members, the journal and its three readers; the transaction, recovery and tick as methods |
| `ParkProof.dfy`, `Rotation.dfy` | park markers; the drained and rotation evidence |
| `Duplication.dfy`, `Ratchet.dfy` | the duplicate scanner and its baseline |
| `Closure.dfy` | the import closure of the directory audit |

## How the model stands to the program

- A tick is cut at every read, broker call, record write and link. Between two steps of one
  host anything else may happen: steps of other hosts, worker scopes, other root callers,
  respawned processes, crashes, reboots, and any post or change of live generation by the coordinator,
  which is unconstrained.
- A read of an epoch is not atomic over its files. It returns some markers of the store,
  among them everything this host read or posted before, and only if they validate.
- Host markers are posted only by the agent of that host. A link never replaces a marker.
- SHA-256 over canonical JSON is an injective constructor.
- The broker serves begin and end by holder, and boots behind a hold for the agent when its
  durable record was open. Forced ends and takeovers by an operator are not modelled.
- In the fleet model a rotation proof is one look at gate and running generations, and at
  the release also at scopes; before the phase marker is posted the scope count is the one
  the drain was opened with. `Rotation.dfy` models how that look is taken.
- A client whose broker keeps no durable record boots with the gate open and its volatile
  file gone; workers wait for the file.
- A tick goes on using the local record as it loaded it, also after it has written another;
  `loaded` in a fleet host is that copy.
- `under` and `seen` in a fleet host, and `base`, `target` and `acts` in a client, are
  history that the program does not store.
- The client's environment is a script of moves consumed before each primitive step: each
  step goes ahead, raises, or is never reached because the host dies there. Every
  interleaving and every crash point is some script.

## Where the program and its promises differ

- An unattributed drain is accepted as the agent's hold but not claimed
  (`Broker.BeginClaimsUnlessUnattributed`). The order of markers, the one release
  generation, the absence of conflicts and the rule that only a release ends a drain hold
  over all runs all the same. That a drained host is closed and idle is sure exactly when
  the drain it proved was the agent's own (`FleetGates.IdleSurvivesIffClaimed`); the
  theorems that conclude it of a host ask this of that host's first proof in that epoch only. Without it, runs
  show work starting in an unresumed epoch (`FleetLimits.AnonymousDrainBreaksHold`), two
  hosts working on two generations (`FleetLimits.AnonymousDrainBreaksExclusion`), and a
  recovery that stops the broker under work (`Client.KilledWork`, exact condition
  `Client.StopKillsNothingIff`).
- `docs/client_upgrade.md` says that a completed epoch can be cleaned up after a later
  generation is live. This holds exactly for a host whose record says released
  (`FleetStranding.CompletedEpochCleansUpIff`); a host that was held again after a reboot
  stays held (`FleetStranding.CompletedEpochCanStrand`).
- Recovery takes an inactive unit for a stopped one. A unit between two automatic restarts
  also answers inactive, and a recovery's writes can then meet a running service
  (`Client.RestartRace`); they never do exactly when the unit was not between restarts at
  the look (`Client.RecoveryWritesDownIff`).
- After an installation the tick judges its epoch by the record it loaded. A host that took
  its hold again in that tick can lose the record although it says held
  (`FleetStranding.HeldRecordCanBeCleared`), exactly when it finds the epoch terminal
  (`FleetTheorems.HeldRecordLostIff`).
- `docs/client_upgrade.md` says that boot loss of the volatile gate requires a fresh rotation
  proof before reopening. This holds exactly while the host has a record
  (`FleetTheorems.ReopeningProvedIff`); once a finished epoch's record is cleared, the boot
  hold ends without one (`FleetStranding.BootHoldEndsUnproved`).
- The intent validator accepts roster hosts whose markers cannot be written
  (`MarkerNames.RosterHostPostsIff`).
- Recovery resets owner and mode of every member but the proof
  (`ClientFiles.RestoredIsExactIff`).
- The docstring of `sanitized` says distinct inputs cannot collapse; they can
  (`MarkerNames.SanitizedCollideIff`), and the agent's park key agrees with the strict one
  exactly for stamps printed without an exponent (`Rotation.ParkKeysAgreeIff`).

## Model

| member | source | states |
|---|---|---|
| `Broker.NamedDrainHolds` | tools/fleet/resource_broker.py:1230-1300 | a drain with a named holder is unchanged by every sequence of begin and end calls made by other callers |
| `Broker.AgentHoldSurvivesIffNamed` | qualification_artifacts/latest-proof-upgrader.py:1032-1044 | a drain the agent does not read as somebody else's survives every sequence of calls by others if and only if the agent is its named holder |
| `MarkerNames.SanitizedFixedIff` | qualification_artifacts/latest-proof-upgrader.py:516-522 | sanitizing leaves a text unchanged exactly when every character is safe |
| `MarkerNames.SanitizedCollideIff` | qualification_artifacts/latest-proof-upgrader.py:516-522 | two texts collide exactly when they are equally long and differ only where both hold unsafe characters or underscores; the docstring's claim that distinct inputs cannot collapse is false |
| `MarkerNames.SanitizedStampsCollide` | qualification_artifacts/latest-proof-upgrader.py:525-532 | two distinct drain stamps whose park keys are equal |
| `MarkerNames.MarkerNameInjective` | qualification_artifacts/latest-proof-upgrader.py:183-194 | marker names determine host and phase, for hosts with dots and across host and decision markers |
| `MarkerNames.MarkerNameIsNotIntent` | qualification_artifacts/latest-proof-upgrader.py:183-194 | no marker shares the name of the intent file |
| `MarkerNames.RosterHostPostsIff` | qualification_artifacts/latest-proof-upgrader.py:816-830 | a host the intent validator accepts can have its marker written exactly when its name starts with a letter or digit and leaves room for phase and extension in one 128-character segment |
| `MarkerNames.LongRosterHostCannotPost` | qualification_artifacts/latest-proof-upgrader.py:158-165 | accepted roster hosts whose drained marker no write accepts |
| `Epoch.SnapshotProves` | qualification_artifacts/latest-proof-upgrader.py:641-697 | what a validated snapshot shows (activation, rollback, resume, terminal, each with exactly the observed markers) is shown by every store that has grown from it |
| `Epoch.ProofsGrow` | qualification_artifacts/latest-proof-upgrader.py:671-697 | those proofs survive every growth of the store, and a resume keeps its generation |
| `Epoch.ResumeNeedsEveryDrain` | qualification_artifacts/latest-proof-upgrader.py:658-697 | a proved resume implies that every roster host has drained and has rotated, or has rolled back |
| `Epoch.PostKeepsValid` | qualification_artifacts/latest-proof-upgrader.py:1213-1232 | a host marker posted from any earlier valid snapshot, however stale, keeps the current epoch valid |
| `Epoch.PostsKeepValid` | qualification_artifacts/latest-proof-upgrader.py:641-697 | an epoch that validated once still validates after any number of such posts |
| `EpochFiles.LookupAgrees` | qualification_artifacts/latest-proof-upgrader.py:649-656 | in a directory of valid files, looking a marker up by file name and by host and phase agree for every slot |
| `EpochFiles.Collect` | qualification_artifacts/latest-proof-upgrader.py:719-728 | the directory loop succeeds exactly when every entry is skipped or valid, and then holds exactly the markers of the entries that are not skipped |
| `EpochFiles.ReadEpoch` | qualification_artifacts/latest-proof-upgrader.py:710-728 | an epoch is returned exactly when its name, intent, entry count, every entry and the marker relations are valid, with exactly the markers in the directory |
| `EpochFiles.NamesCount` | qualification_artifacts/latest-proof-upgrader.py:183-194 | a set of slots has as many file names as members, and none of them is the intent |
| `EpochFiles.EpochSizeBound` | qualification_artifacts/latest-proof-upgrader.py:213-286 | a valid epoch holds at most five markers for each roster host and five decisions |
| `EpochFiles.EntryLimitNeverReached` | qualification_artifacts/latest-proof-upgrader.py:717-728 | without temporary siblings a directory of valid entries has at most 1286 entries, so the 2048 limit never refuses it |
| `EpochFiles.EpochSizeReached` | qualification_artifacts/latest-proof-upgrader.py:641-697 | every valid intent has a valid epoch of exactly that many markers |
| `FleetInvariant.InitOk` | qualification_artifacts/latest-proof-upgrader.py:1597-1620 | the invariant on markers, records and releases holds before any epoch is joined, whatever decisions are already posted and however the gates stand |
| `FleetInvariant.HostOkGrows` | qualification_artifacts/latest-proof-upgrader.py:641-697 | what is known of one host survives everything that others add to the store |
| `FleetGates.OutsideStaysShut` | tools/fleet/resource_broker.py:1230-1300 | crashes, reboots, worker scopes, respawned loops and other callers, named or not, never open the agent's own drain or start work behind it |
| `FleetGates.StepKeepsGate` | qualification_artifacts/latest-proof-upgrader.py:1360-1387 | every step of the fleet keeps a drained, unreleased host closed and idle, except where its agent first proves the drain over an unattributed one that it took for its own |
| `FleetGates.IdleSurvivesIffClaimed` | qualification_artifacts/latest-proof-upgrader.py:1032-1063 | a host about to prove an idle drain is sure to stay closed and idle, whatever happens around its agent, if and only if the drain is the agent's own |
| `FleetSteps.SteeredResumeAgrees` | qualification_artifacts/latest-proof-upgrader.py:1431-1437 | a host advancing in one direction can only ever read a valid resume for that same generation |
| `FleetSteps.OwnMarkersAgree` | qualification_artifacts/latest-proof-upgrader.py:1213-1232 | a stored marker of the host states the same identity as the one it is about to post, in every phase but failed |
| `FleetSteps.ChoiceSteers` | qualification_artifacts/latest-proof-upgrader.py:1389-1406 | the decision table only starts a direction that no later valid resume can contradict |
| `FleetSteps.ReadKeeps` | qualification_artifacts/latest-proof-upgrader.py:1290-1294 | every validated read, at each point of a tick where one happens, keeps the host's invariant |
| `FleetSteps.LinkKeeps` | qualification_artifacts/latest-proof-upgrader.py:1213-1232 | linking a marker, or finding it already there, keeps the host's invariant against the grown store |
| `FleetSteps.PersistKeeps` | qualification_artifacts/latest-proof-upgrader.py:1190-1196 | each write of the local record (join, hold again, release) keeps the invariant |
| `FleetSteps.CleanUpKeeps` | qualification_artifacts/latest-proof-upgrader.py:1621-1629 | removing the local record of a terminal epoch keeps the invariant, whichever record stood there |
| `FleetSteps.CloseKeeps` | qualification_artifacts/latest-proof-upgrader.py:1440-1452 | ending a drain, in ordinary work or at the release, keeps the invariant |
| `FleetSteps.DrainOpenedKeeps` | qualification_artifacts/latest-proof-upgrader.py:1630-1643 | opening the drain at each of its call sites keeps the invariant |
| `FleetSteps.InstallKeeps` | qualification_artifacts/latest-proof-upgrader.py:1644-1658 | the install transaction and journal recovery inside an epoch keep the hold |
| `FleetSteps.CheckGateKeeps` | qualification_artifacts/latest-proof-upgrader.py:1323-1358 | the released branch (terminal, reopened gate, or lost gate) keeps the invariant |
| `FleetSteps.StepKeeps` | qualification_artifacts/latest-proof-upgrader.py:1311-1459 | every step of any host, of its surroundings and of an unconstrained coordinator keeps the fleet invariant |
| `FleetTheorems.RunKeepsInvariant` | qualification_artifacts/latest-proof-upgrader.py:1577-1658 | the invariant holds in every state of every run |
| `FleetTheorems.RunKeepsGate` | qualification_artifacts/latest-proof-upgrader.py:1360-1387 | along every run a host is shut from its drain proof to its release or the end of the epoch, unless its own agent first proved that epoch's drain over an unattributed one |
| `FleetTheorems.OnceShutStaysShut` | qualification_artifacts/latest-proof-upgrader.py:1360-1387 | however its drain was proved, a drained host that is once closed and idle under the agent's own drain stays so until its release or the end of the epoch |
| `FleetTheorems.BarrierOrder` | qualification_artifacts/latest-proof-upgrader.py:641-697 | over all runs: rotated implies an activation that saw every drained marker; rolled-back implies a rollback and a reversion that did; resumed implies a resume that saw every host rotated, or every host rolled back, and names its generation |
| `FleetTheorems.MixedGenerationExclusion` | qualification_artifacts/latest-proof-upgrader.py:1311-1459 | until an epoch is terminal, once one host has been released in it, every roster host is held or was released in it on the same generation; a held one is closed and idle unless its own agent first proved the drain over an unattributed one |
| `FleetTheorems.AdmissionNeedsRelease` | qualification_artifacts/latest-proof-upgrader.py:1438-1452 | a host that first proved its drain over one of its own and admits or runs work is in a finished epoch or was released by its resume on the generation named there |
| `FleetTheorems.OneReleaseGeneration` | qualification_artifacts/latest-proof-upgrader.py:1389-1437 | hosts released in one epoch, at whatever times, are released on one generation |
| `FleetTheorems.StoreOnlyGrows` | qualification_artifacts/latest-proof-upgrader.py:858-897 | along a run no marker is changed or removed |
| `FleetTheorems.NoSelfDisagreement` | qualification_artifacts/latest-proof-upgrader.py:1431-1437 | the "resume authorizes a different generation" error, and a conflict on any marker but failed, are unreachable |
| `FleetTheorems.RepostsAgree` | qualification_artifacts/latest-proof-upgrader.py:1213-1232 | whatever a host is about to post, in any phase but failed, agrees in identity with the stored marker of that name |
| `FleetTheorems.OpenerIsRelease` | qualification_artifacts/latest-proof-upgrader.py:1440-1452 | with a held record, of all steps only the release ends a drain or opens the agent's own |
| `FleetTheorems.HoldUntilResume` | qualification_artifacts/latest-proof-upgrader.py:1431-1452 | whenever the agent of a held host ends a drain, or its own drain opens, that tick had earlier read a validated resume for the generation and after it taken a rotation proof for it |
| `FleetTheorems.EpochStaysValid` | qualification_artifacts/latest-proof-upgrader.py:1213-1232 | along every run an epoch that is valid stays valid through any number of steps of hosts and their surroundings |
| `FleetTheorems.ReopeningProvedIff` | docs/client_upgrade.md:122-123 | when the agent ends a drain, a rotation proof precedes it in the same tick if and only if the host has a record |
| `FleetTheorems.HeldRecordLostIff` | qualification_artifacts/latest-proof-upgrader.py:1811-1814 | a held record is lost if and only if the status check of a tick that loaded it as released finds the epoch terminal; every host has resumed by then |
| `FleetLimits.AnonymousDrainBreaksHold` | qualification_artifacts/latest-proof-upgrader.py:1032-1044 | a reachable state in which a host proved itself drained over an unattributed drain, nobody has resumed, and the host runs work |
| `FleetLimits.AnonymousDrainBreaksExclusion` | qualification_artifacts/latest-proof-upgrader.py:1032-1044 | a reachable state of two hosts in which one has been released on the target while the other, still held and never released, runs work on the source |
| `FleetStranding.StrandedStays` | qualification_artifacts/latest-proof-upgrader.py:1407-1408 | a held host with a third generation live stays held through every step while that lasts, and closed if it is under the agent's own drain |
| `FleetStranding.ReleasedHostCleansUp` | qualification_artifacts/latest-proof-upgrader.py:1621-1629 | a released host clears the record of a terminal epoch in one tick, whatever generation is live |
| `FleetStranding.StrandedForever` | qualification_artifacts/latest-proof-upgrader.py:1407-1408 | and so it does through any number of steps |
| `FleetStranding.CompletedEpochCleansUpIff` | docs/client_upgrade.md:120-124 | with a later generation live, a host that finds its epoch completed can clean up if and only if its record says released |
| `FleetStranding.CompletedEpochCanStrand` | docs/client_upgrade.md:120-124 | a run reaches such a host: released, rebooted, held again, and only then is the epoch terminal and a later generation live |
| `FleetStranding.HeldRecordCanBeCleared` | qualification_artifacts/latest-proof-upgrader.py:1811-1814 | a run that does lose a held record: loaded as released, held again, installed, then found terminal |
| `FleetStranding.BootHoldEndsUnproved` | docs/client_upgrade.md:122-123 | a run in which a host whose epoch is finished reboots into a hold, clears its record and reopens with its loops on the old generation and no rotation proof taken |
| `ClientFiles.CopyUpToAt` | qualification_artifacts/latest-proof-upgrader.py:1487-1515 | after any number of members copied, exactly those are as the source and hashes say, and all others are untouched |
| `ClientFiles.FencedJournalAccepted` | qualification_artifacts/latest-proof-upgrader.py:1733-1749 | when the fences pass, the old and the new updater both accept the journal |
| `ClientFiles.RecoversExactlyIff` | qualification_artifacts/protocol-one-upgrader.py:1422-1441 | a recovery by any accepting reader is exact if and only if there was no proof file, the reader speaks protocol two, or the proof file's metadata was plain |
| `ClientFiles.FencedRecoveryExact` | qualification_artifacts/latest-proof-upgrader.py:1733-1749 | with the fences passed, whichever updater is on disk restores every member's bytes or absence and the proof file's owner and mode, from any mixed directory |
| `ClientFiles.PrebridgeAcceptsIff` | qualification_artifacts/prebridge-upgrader.py:1407-1415 | the pre-bridge reader accepts a journal if and only if it does not name the proof member |
| `Client.RestoringStaysMixed` | qualification_artifacts/latest-proof-upgrader.py:1517-1537 | at every point of a recovery each member is the old, the new or the restored one |
| `Client.RestoringCompletes` | qualification_artifacts/latest-proof-upgrader.py:1535-1537 | a completed copy of the kept files is the restored client, from any mixed directory |
| `Client.InstallingStaysMixed` | qualification_artifacts/latest-proof-upgrader.py:1788-1792 | at every point of an installation each member is old or new, and at the end all are new |
| `Client.UpdaterOnDisk` | qualification_artifacts/latest-proof-upgrader.py:1733-1749 | at every crash point the updater on disk is the old or the new one and accepts the journal |
| `Client.SuccessionKeeps` | qualification_artifacts/latest-proof-upgrader.py:1713-1729 | no tick loses broker durability or rollout awareness |
| `Client.RecoveryWritesDownIff` | qualification_artifacts/latest-proof-upgrader.py:1525-1535 | recovery's writes never meet a running service, under any script, if and only if the unit was not between two restarts as recovery looked |
| `Client.StopKillsNothingIff` | qualification_artifacts/latest-proof-upgrader.py:1528-1534 | after an idle drain was opened the stop interrupts no work, under any script, if and only if the drain is the agent's own |
| `Client.Client.OpenDrain` | qualification_artifacts/latest-proof-upgrader.py:1046-1063 | on success the gate is closed, not held elsewhere, and the reported idleness is the broker's; what it does under a script is given exactly |
| `Client.Client.StopService` | qualification_artifacts/latest-proof-upgrader.py:1024-1026 | the stop interrupts nothing, whatever happens before it takes effect, unless it follows at once on an unattributed drain |
| `Client.Client.CloseDrain` | qualification_artifacts/latest-proof-upgrader.py:1065-1077 | ends only a drain that is not somebody else's |
| `Client.Client.PutMember` | qualification_artifacts/latest-proof-upgrader.py:1489-1514 | one member is replaced or removed in one step, exactly when its staged bytes match its hash, and otherwise nothing changes |
| `Client.Client.IsActive` | qualification_artifacts/latest-proof-upgrader.py:1527 | answers by whether the unit is running, so a unit between restarts reads as down |
| `Client.Client.CopyFiles` | qualification_artifacts/latest-proof-upgrader.py:1487-1515 | wherever it stops, the directory is a whole number of members into the copy; every write meets a stopped service, or follows a look that found the unit between restarts with only writes in between |
| `Client.Client.StopIfActive` | qualification_artifacts/latest-proof-upgrader.py:1525-1534 | ends with the service stopped, or with a look that found the unit between restarts as its last act |
| `Client.Client.RestoreFiles` | qualification_artifacts/latest-proof-upgrader.py:1525-1537 | wherever it stops the disk invariant holds, and completed it leaves the restored client |
| `Client.Client.Recover` | qualification_artifacts/latest-proof-upgrader.py:1517-1545 | on success no journal is left and the client is the old one, on failure or crash the journal and the kept files are intact; a kept drain is not ended; an accepted journal is worked through exactly as the recovery trace says |
| `Client.Client.RestoreAndReopen` | qualification_artifacts/latest-proof-upgrader.py:1525-1543 | the same for the steps after the journal has been accepted |
| `Client.Client.Stage` | qualification_artifacts/latest-proof-upgrader.py:1750-1765 | on success the staging directory holds the version and the previous directory the installed client |
| `Client.Client.Current` | qualification_artifacts/latest-proof-upgrader.py:1672-1712 | a tick with nothing to install opens or ends only its own drain, and reports current only with the gate open and its file in place, also after a boot has lost the file |
| `Client.Client.CopyStaged` | qualification_artifacts/latest-proof-upgrader.py:1788-1792 | wherever the copy of the staged members stops the disk invariant holds; completed, the published client is installed |
| `Client.Client.InstallStaged` | qualification_artifacts/latest-proof-upgrader.py:1788-1797 | the same to the end of the transaction, and inside an epoch the drain is not ended |
| `Client.Client.Journaled` | qualification_artifacts/latest-proof-upgrader.py:1781-1810 | from the write of the journal to its removal the directory is recoverable; without a journal it is wholly old or wholly new |
| `Client.Client.CloseAndInstall` | qualification_artifacts/latest-proof-upgrader.py:1766-1810 | from opening the drain on: the client found or the version, every stop and write guarded |
| `Client.Client.Transact` | qualification_artifacts/latest-proof-upgrader.py:1669-1816 | a whole transaction leaves the client it found or the fenced version it was to install |
| `Client.Client.Tick` | qualification_artifacts/latest-proof-upgrader.py:1644-1658 | a tick, with any crash point and any updater on disk, keeps the disk invariant and behaves |
| `Client.Client.Round` | qualification_artifacts/latest-proof-upgrader.py:1577-1658 | one tick with any script, after a reboot that keeps or loses the gate as the installed broker is durable or not, keeps the disk invariant and behaves |
| `Client.Client.Run` | qualification_artifacts/latest-proof-upgrader.py:1577-1816 | over any ticks, crash points, reboots and callers: without a journal one whole client, always the first or a published one; no drain ended in any tick that is inside an epoch; each stop met a closed idle gate or directly follows the opening of an unattributed drain; each write met a stopped service or belongs to a recovery whose look found the unit between restarts |
| `Client.RestartRace` | tools/fleet/install_resource_broker.sh:58-61 | a call of recover, with a journal, one of whose writes meets a running service, because the unit was restarted after the look |
| `Client.KilledWork` | qualification_artifacts/latest-proof-upgrader.py:1525-1534 | a call of recover, with a journal, that stops the broker under running work, because the drain it opened was unattributed |
| `ParkProof.KeyHasNoHyphen` | qualification_artifacts/strict-proof.py:53-56 | a drain key holds no hyphen and nothing special in a glob pattern |
| `ParkProof.KeyRoundTrip` | qualification_artifacts/strict-proof.py:53-56 | the printed number is recovered from its key |
| `ParkProof.TextInjective` | qualification_artifacts/strict-proof.py:53 | distinct printed numbers read differently |
| `ParkProof.DrainKeyInjective` | qualification_artifacts/strict-proof.py:40-56 | two closed gates have one key if and only if they have one stamp |
| `ParkProof.ProcessIdentity` | qualification_artifacts/strict-proof.py:59-66 | a process is identified exactly when its pid is a positive integer and its start ticks are ASCII digits, and then unchanged |
| `ParkProof.FilenameInjective` | qualification_artifacts/strict-proof.py:69-70 | distinct process, start or drain never share a marker name |
| `ParkProof.FilenameSplits` | qualification_artifacts/strict-proof.py:188 | splitting a marker name in three gives back pid, start ticks and drain key |
| `ParkProof.Acknowledge` | qualification_artifacts/strict-proof.py:73-92 | complete exactly when the drain is known and unchanged and every census process is identified and parked on it; otherwise the reasons, or the unparked pids in order |
| `ParkProof.ExpectedMarkers` | qualification_artifacts/strict-proof.py:201-213 | known exactly when the drain and every process are, and then exactly the names the processes must post; otherwise the first reason |
| `ParkProof.RoutesAgree` | qualification_artifacts/strict-proof.py:73-92 | under one gate the acknowledgement is complete exactly when the expected markers are known and present |
| `ParkProof.ForeignMarkersNeverCount` | qualification_artifacts/strict-proof.py:73-92 | adding or removing markers of other drains or of processes outside the census, reused pids included, changes no verdict |
| `ParkProof.AcceptsExactlyMarkers` | qualification_artifacts/strict-proof.py:187-195 | the tests on one directory entry accept exactly the marker names of this drain |
| `ParkProof.ParkedMarkers` | qualification_artifacts/strict-proof.py:178-198 | the directory loop returns, sorted, exactly the regular files that are markers of this drain |
| `ParkProof.AcceptedMarkersSuffice` | qualification_artifacts/strict-proof.py:178-198 | acknowledging from those alone gives the verdict of the whole directory |
| `Rotation.ParkKeysAgreeIff` | qualification_artifacts/latest-proof-upgrader.py:525-532 | the agent's park key equals the loops' strict key if and only if the stamp prints without an exponent |
| `Rotation.UnparkedIff` | qualification_artifacts/latest-proof-upgrader.py:609-614 | nothing is unparked exactly when every serving process has its marker for a known drain |
| `Rotation.TrustedStaysBelow` | qualification_artifacts/latest-proof-upgrader.py:1264-1273 | an accepted program path, its ".." parts resolved, lies strictly below the resolved generation directory |
| `Rotation.Inspect` | qualification_artifacts/latest-proof-upgrader.py:1254-1280 | one process adds no error exactly when it is no admission process or is in place and, if it claims work, parked |
| `Rotation.InspectAll` | qualification_artifacts/latest-proof-upgrader.py:1251-1280 | the census loop has no error exactly when every admission process is in place, observes nothing else, and counts supervisors and workers |
| `Rotation.RotationEvidence` | qualification_artifacts/latest-proof-upgrader.py:1234-1288 | rotated exactly when broker proof, both looks at the gate, every process, exactly one supervisor and at least one worker agree; then every admission process is in the evidence |
| `Rotation.RotatedIsDrained` | qualification_artifacts/latest-proof-upgrader.py:590-614 | rotation evidence implies that the same census satisfies the drained check |
| `Rotation.RotatedRunsGeneration` | qualification_artifacts/latest-proof-upgrader.py:1264-1273 | every admission process of a rotated host runs from below the expected generation |
| `Duplication.Signature` | tools/duplication_inventory.py:211-213 | each row is the least salted hash of the shingles |
| `Duplication.SlicesAgree` | tools/duplication_inventory.py:214-215 | two slices are equal exactly when the shingle sets have the same least hash in every row of the band |
| `Duplication.Index` | tools/duplication_inventory.py:210-215 | in the filled buckets two fingerprints meet exactly when they share a whole band |
| `Duplication.MeetIff` | tools/duplication_inventory.py:210-215 | buckets that hold exactly the fingerprints with their band and rows bring two together exactly when they share a whole band |
| `Duplication.PairsWithin` | tools/duplication_inventory.py:217-224 | the two loops over a bucket find exactly its cross-file pairs of sufficient similarity |
| `Duplication.Scan` | tools/duplication_inventory.py:207-224 | the reported pairs are exactly the cross-file pairs that share a band and have Jaccard similarity at least nine tenths |
| `Duplication.EqualShinglesShareBand` | tools/duplication_inventory.py:211-215 | equal shingle sets share a band under any salts |
| `Duplication.ScanAgainstAllPairs` | tools/duplication_inventory.py:207-224 | what is reported, comparing all pairs reports; cross-file pairs with equal shingles are never missed |
| `Ratchet.RegisteredSameName` | tools/duplication_inventory.py:234-240 | a file is exempt for a name exactly when some registered row says so |
| `Ratchet.GrowthIff` | tools/duplication_inventory.py:243-250 | the growth check reports exactly the definitions allowed by neither baseline nor exception |
| `Ratchet.Trim` | tools/duplication_inventory.py:261-267 | the loop keeps, in order, exactly the files no exception covers, and drops empty groups |
| `Ratchet.WriteBaseline` | tools/duplication_inventory.py:258-277 | the written baseline is the scan with exempt files, dead exceptions and stale must-differ rows removed |
| `Ratchet.LivenessKeepsExemptions` | tools/duplication_inventory.py:268-271 | dropping dead exceptions frees no file the scan still finds |
| `Ratchet.NoGrowthAfterRewrite` | tools/duplication_inventory.py:243-277 | right after a rewrite the growth check on the same scan is empty |
| `Ratchet.RewriteIsFixpoint` | tools/duplication_inventory.py:258-277 | rewriting again from the same scan changes nothing |
| `Ratchet.NoGrowthIffShrinks` | tools/duplication_inventory.py:243-267 | the growth check passes if and only if a rewrite would only shrink the groups |
| `Closure.Extend` | tools/audit_directory_captures.py:169-172 | one name's new targets are added to the set and the worklist, keeping everything else explored |
| `Closure.ExploredIsReachable` | tools/audit_directory_captures.py:166-172 | an empty worklist leaves exactly the reachable names, the least closed set around the seeds |
| `Closure.Close` | tools/audit_directory_captures.py:166-172 | the worklist terminates, for every finite edge map, with exactly what the seeds reach |

## Left out

- FleetTheorems.MixedGenerationExclusion: that a held host is closed and idle is promised only where its own agent did not first prove the drain over an unattributed one; for a host that did, it can fail, as shown above.
- FleetTheorems.AdmissionNeedsRelease: the same condition on the one host it speaks of.
- FleetTheorems.NoSelfDisagreement: a conflict on a failed marker is possible, because such markers carry either the source or the live generation.
- Client.Client.Run: a stop directly after an unattributed drain may interrupt work, and a write after a look that found the unit between restarts may meet a running service; both are false promises there, as shown above.
- Client.Client.Tick: an updater older than protocol two only recovers; its own transactions are not modelled.
- Duplication.Scan: similarity is compared exactly, where the program rounds a quotient to a double; the two can differ only for unions of more than 2^49 shingles. Salts are a parameter, and the pairs are a set.
- Ratchet.WriteBaseline: the JSON text of the baseline.
- Sockets, subprocesses, file locks, privilege changes, fsync and temporary files: each is one step that happens or does not.
- JSON, base64, regular expressions and SHA-256 themselves; `/proc` parsing, which enters as a census.
- The coordinator's and the broker's own implementation beyond begin, end and boot.
- Which epoch a host without a record picks when several exist: any readable, unfinished one.
- Liveness: nothing says that an epoch finishes, only what is true if it does.
- Attestation, status reports and error texts; parsing of Python sources into fingerprints and edges.
- The runtime publisher, the worker loops, storage and observability.
