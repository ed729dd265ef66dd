# Igor, modelled and verified in Dafny

Igor runs WASM agents that checkpoint themselves, move between nodes, record what they observe and pay
for their own execution. This project models the parts of it that carry state machines, protocols and
codecs, in the form the Go code has: classes with fields where the code updates structs, arrays filled
at offsets where it fills buffers, loops where it loops. Each method is proved against a specification
function, and the promises of the system are proved about those functions over all runs.

`dafny verify dfyconfig.toml` checks everything (Dafny 4.11).

| file | what it models |
|---|---|
| `Bytes.dfy`, `Buffers.dfy` | fixed-width integers with their wrap-around, little-endian layouts, buffers filled at an offset |
| `Encoding.dfy` | the SDK's Encoder and Decoder with the sticky short-read error |
| `EffectLog.dfy` | the intent state machine, and runs of operations, saves, crashes and restores |
| `Authority.dfy` | epochs, leases, paced renewal checks, epochs along a chain of authority |
| `Migration.dfy` | the retrying source, failure classification, and the target that accepts or refuses |
| `Protocol.dfy` | all nodes' leases and all transfers as one state machine |
| `Handover.dfy` | one retrying migration as a run of that state machine |
| `Checkpoint.dfy` | the three checkpoint formats, signing, building and loading |
| `Chain.dfy` | verifying an archived lineage |
| `History.dfy` | storage, archive names, and runs over several hosts that lead to such a lineage |
| `Resave.dfy` | the same on one host with several saves at one tick |
| `EventLog.dfy` | recording into the per-tick arena, and the bounded history |
| `Replay.dfy` | live hostcalls, replayed hostcalls, single-tick and chain replay |
| `Instance.dfy`, `Payment.dfy`, `Receipt.dfy` | ticks, metering, the replay window, wallet_pay, receipts |
| `Tick.dfy` | whole ticks: the agent's hostcalls on the instance's budget and event log, and runs of them |
| `Sentinel.dfy`, `Deployer.dfy`, `Liquidation.dfy` | three agents |
| `Base58.dfy` | base58 and did:key (W3C CCG did:key Method, section 2; draft-msporny-base58, sections 3 and 4) |

## Findings

Where a promise does not hold of the code in general, the code is kept, a lemma shows the failing case, and
another says exactly when the promise holds.

- Recovery. The preconditions documented on `Recover` (no other node ticks, the lineage is not forked) do not
  suffice: the transfer whose confirmation was lost may still be accepted after the source has recovered, and
  an instance elsewhere may revert its handoff (`Protocol.DocumentedPreconditionIsNotEnough`). Recovery is safe
  exactly when nothing else claims the agent (`Protocol.RecoverySafeIff`).
- Negative budgets. A tick may overdraw the budget, and a checkpoint saved then is written but can never be
  parsed again, neither on resume nor by the verifier nor by a migration target (`Checkpoints.LoadOfBuilt`,
  `Histories.MergedHistoryVerifiesIff`, `Migrations.HonestPackageLoads`); a process gets there in one tick
  (`Instances.OverdrawnCheckpointIsLost`).
- Two saves at one tick. The archive skips the second file while the hash chain advances to it, so the next
  archived checkpoint no longer fits (`Histories.SecondSaveAtATick`, `Histories.SecondSaveIsNeverTheSame`,
  `Histories.SecondSaveBreaksARun`). Over all runs on one host the directory verifies exactly if every tick that
  has a later one behind it ended with the file it began with (`Resaves.DirectoryVerifiesIffNothingLost`).
- Empty receipts. A receipt cut at the tick of the one before it, by a second save or after a resume from an older
  header, ends before it starts (`Instances.SecondReceiptCoversNothing`, `Instances.ReceiptsCoverIff`).
- Archive names. From tick 10^10 on names have eleven digits and sort before ten-digit ones
  (`Histories.NameOrderBreaksAtLimit`, `Histories.HistoryBreaksAtLimit`, `Histories.DirectoryVerifiesIff`).
- Migration epochs. The granted epoch comes from the stored checkpoint; it supersedes the current one exactly
  if that checkpoint carries the current major version (`Authority.MigrationSupersedesIff`,
  `Authority.StaleCheckpointRepeatsAnEpoch`).
- Recovery epochs. After a lost confirmation the source and a target that did accept can both be granted the same
  epoch, even if the recovery itself is safe (`Protocol.RecoveryRepeatsAnEpoch`). Epochs increase over all nodes
  exactly if only the instance with the highest major version recovers (`Protocol.EpochsIncreaseIff`).
- The sentinel resets its balance on the second tick if its first clock reading is zero
  (`Sentinels.ZeroClockBreaksConservation`).
- A payment whose receipt buffer is out of bounds is charged without succeeding (`Payments.ChargedOnceIff`).

Where comments and code disagree the model follows the code: `HANDOFF_PENDING` is never entered; a reverted
handoff goes back to `ACTIVE_OWNER`; the comment on `IsRetriable` lists an exhausted budget as fatal, but no
fatal phrase matches it.

Cryptography is given as functions of which only the sizes are assumed and that verification accepts what
signing made. No hash is assumed to be free of collisions: lemmas that depend on it either say that the files
concerned do not collide or conclude that a collision is among them. Clocks,
randomness, the network, WASM execution and file-system failures are parameters of the methods or events
of the runs.

## Model

| member | source | states |
|---|---|---|
| `Protocol.OneOwner` | internal/migration/service.go:247-459 | In every run of handoffs, sends, refusals, accepts, confirmations, losses, reverts, renewals, expiries and guarded recoveries over any number of nodes, at most one instance anywhere has a lease in ACTIVE_OWNER |
| `Protocol.StepKeepsInv` | internal/migration/service.go:555-686 | Every step keeps at most one claim on the agent (an owner, a revertible handoff, or an abandoned transfer that can still be accepted), with waits and answers matched and a revertible handoff registered at its node |
| `Protocol.StepKeepsSole` | internal/authority/lease.go:134-197 | No step leaves more than one claim on the agent |
| `Protocol.AcceptPassesClaim` | internal/migration/service.go:655-686 | After a package is accepted the new instance, registered at the target with the epoch (packaged major + 1, 0) and a full duration, is the one and only claimant, whether its source still waits or not |
| `Protocol.LossPassesClaim` | internal/migration/service.go:421-432 | After a lost confirmation the source claims nothing: a pending transfer is then the one and only claim, an accepted one leaves all claims as they were, and after a refusal there is none |
| `Protocol.RecoveryClaims` | internal/authority/lease.go:188-197 | A recovery that takes effect makes its instance the one and only claimant |
| `Protocol.RecoverySafeIff` | internal/authority/lease.go:179-197 | Recover leaves every continuation with at most one owner if and only if nothing else claims the agent at that moment |
| `Protocol.SecondOwner` | internal/authority/lease.go:179-197 | For each kind of overlooked claim, the run that ends with two owners |
| `Protocol.DocumentedPreconditionIsNotEnough` | internal/authority/lease.go:182-187 | A run where no other node ticks and only one instance ever existed, so the documented preconditions of Recover hold, and two owners follow |
| `Protocol.EpochsIncreaseIff` | internal/authority/lease.go:118-197 | In runs over all nodes whose packages carry the sender's major version, every granted epoch supersedes all earlier ones if and only if every recovery is by an instance with the highest major version granted so far |
| `Protocol.StepGrantsNewest` | internal/authority/lease.go:63-128 | One step keeps the granted epochs increasing unless it is a recovery by an instance that is behind; renewals and accepted packages always grant the newest epoch, because the claimant holds the newest |
| `Protocol.RecoveryRepeatsAnEpoch` | internal/authority/lease.go:188-197 | The failing case, in a run whose recovery is safe: accept, lost confirmation, expiry of the target, recovery of the source, and source and target have both been granted (1,0) |
| `Handovers.RetryIsARun` | internal/migration/service.go:348-476 | Whatever the network does, one retrying migration from ACTIVE_OWNER is an allowed run of the protocol; the source's lease is as the migration promises, it is unregistered exactly on success, and the new instances are owners on the nodes of exactly the activated targets |
| `Handovers.TriesAreSteps` | internal/migration/service.go:397-458 | The tries alone: sends, refusals, acceptances, confirmations and losses in order, ending as the run ends |
| `Handovers.OneOwnerThroughMigration` | internal/migration/service.go:348-476 | After any allowed run of all nodes followed by a whole retrying migration, at most one instance anywhere is ACTIVE_OWNER |
| `Migrations.AtMostOneActivates` | internal/migration/service.go:397-458 | For every target list, attempt limit and mix of failures at most one target activates the agent: the confirmed one, or possibly the one whose confirmation was lost, and otherwise none |
| `Migrations.OneOwnerAfterRun` | internal/migration/service.go:348-476 | After a run from ACTIVE_OWNER the source may tick only if no target was started and its lease is as before; RETIRED exactly on success, RECOVERY_REQUIRED exactly on a lost confirmation |
| `Migrations.TriesInOrder` | internal/migration/service.go:397-453 | The tries go in order: the same target again after a retriable failure until the limit, the next target at once after a fatal one, and no try after a confirmation, a loss or a cancellation |
| `Migrations.ExhaustedTriesAll` | internal/migration/service.go:397-458 | A run that ends exhausted has reached the last target and used up its attempts there, or failed there fatally |
| `Migrations.LastTryDecides` | internal/migration/service.go:405-450 | How the run ends is determined by the outcome of its last try |
| `Migrations.RetriableIff` | internal/migration/retry.go:43-74 | A failure message is retried exactly when it contains none of the fatal phrases; the second look behind the target's prefix adds nothing |
| `Migrations.AmbiguousIsNotRetriable` | internal/migration/retry.go:40-80 | An ambiguous failure is never retriable, and only failures with a message are |
| `Migrations.FatalIsNotRetriable` | internal/migration/retry.go:52-63 | A message with a fatal phrase anywhere in it is not retried |
| `Migrations.PermanentRefusalsAreFatal` | internal/migration/service.go:591-606 | The words a target sends for a bad hash, a disabled policy or a missing capability are ones the source classifies as fatal |
| `Migrations.AcceptsIff` | internal/migration/service.go:592-727 | A package is stored exactly if its hash has 32 bytes and matches, the replay check found nothing, the manifest parses, its policy is absent or enabled with no maximum price or one the node meets, its memory fits and no capability is missing; it is accepted exactly if besides storing succeeds, its identity reads, and its checkpoint parses, is for the packaged binary and is signed under its own key |
| `Migrations.PackageSays` | internal/migration/service.go:130-180 | The package is the source's own binary, manifest, checkpoint, receipts and identity, the binary's hash, and the meter and epoch at their places in the checkpoint, zeros when it does not parse |
| `Migrations.PackageCarriesLease` | internal/migration/service.go:144-178 | The package of a checkpoint built under a lease carries that lease's epoch, so the lease its target is granted supersedes the saver's own |
| `Migrations.AcceptedLeaseSupersedes` | internal/migration/service.go:144-178 | A package a target accepts carries its checkpoint's own major version, so the granted epoch supersedes the one the checkpoint was saved under |
| `Migrations.HonestPackageLoads` | internal/migration/service.go:555-686 | On a node the manifest admits (policy, price and memory), a package built from a checkpoint this code built is accepted exactly when its budget and price are not negative |
| `Migrations.Service.MigrateAgentWithRetry` | internal/migration/service.go:348-459 | The nested loops make exactly the specified tries; on success the lease is RETIRED, the agent unregistered and its checkpoint deleted; on a lost confirmation RECOVERY_REQUIRED; otherwise lease, registration and storage are as before; refused outright unless ACTIVE_OWNER |
| `Migrations.Service.SendToTargets` | internal/migration/service.go:396-458 | The same from the handed-off state: the ending of the tries decides lease, registration, storage and result |
| `Migrations.Service.TryTargets` | internal/migration/service.go:397-454 | The target and attempt loops with their early exits compute the specified ending and tries |
| `Migrations.Service.Conclude` | internal/migration/service.go:405-457 | Each ending's effect on lease, registration and checkpoint |
| `Migrations.Service.FinalizeMigration` | internal/migration/service.go:310-339 | Compare-and-delete: only the migrated instance is unregistered; its lease is retired from a handoff state only; clean-up stops at a failed checkpoint deletion |
| `Migrations.Service.RevertHandoff` | internal/migration/service.go:463-476 | The registered instance's lease goes back to ACTIVE_OWNER only from HANDOFF_INITIATED |
| `Migrations.Service.MigrateToTarget` | internal/migration/service.go:247-306 | The error is ambiguous exactly when every sending step succeeded and no reply could be read, absent exactly when the reply says success, carries the target's words behind the fixed prefix on a refusal, and names the first step that failed when nothing was sent |
| `Migrations.SendErrorTells` | internal/migration/service.go:247-306 | The text of a failed transfer ends with the error of the first step that failed |
| `Migrations.TargetsSay` | internal/migration/service.go:380-389 | The primary target is first and never comes again; every other candidate follows, in the order given |
| `Migrations.Service.TargetList` | internal/migration/service.go:380-389 | The primary target first, then in order the candidates different from it |
| `Migrations.Service.HandleIncomingMigration` | internal/migration/service.go:555-686 | Success exactly when the package can be stored, is, and can be started, in terms of the manifest's and checkpoint's own fields; then a fresh instance is registered with a lease at (packaged major + 1, 0) when leases are on; on refusal registrations are unchanged; which of checkpoint, receipts and identity stay stored in each case, the deletion of a checkpoint that would not load included |
| `Authority.SupersedesIsStrictTotalOrder` | internal/authority/authority.go:16-27 | Supersedes is irreflexive, transitive, total and asymmetric |
| `Authority.CheckSays` | internal/runner/research/research.go:71-90 | One check in terms of the configuration: allowed exactly for an ACTIVE_OWNER up to expiry plus grace; renewed exactly when the time left is at most duration times renewal window (and grace has not passed meanwhile), and then with the next generation and a full duration; nothing else changes |
| `Authority.ThresholdSays` | internal/authority/lease.go:105-113 | The threshold is duration times renewal window, less the fraction of a nanosecond |
| `Authority.PacedChecksKeepTheLease` | internal/runner/research/research.go:71-90 | Checks at most threshold + grace + 1 ns apart on a non-decreasing clock all allow the tick and keep the lease in ACTIVE_OWNER |
| `Authority.FreshLeaseSurvivesPacedChecks` | internal/authority/lease.go:51-59 | The same from the moment a lease is granted |
| `Authority.CheckedKeepsMargin` | internal/authority/lease.go:106-128 | One such check keeps more than the renewal threshold ahead, and every due renewal succeeds |
| `Authority.GapBoundIsExact` | internal/authority/lease.go:98-143 | Under every valid configuration one nanosecond more between checks loses some run its lease |
| `Authority.NoTickPastGrace` | internal/authority/lease.go:134-143 | No check in any sequence allows a tick after expiry plus grace, nor after an earlier denial |
| `Authority.StaysDenied` | internal/authority/lease.go:134-143 | A lease outside ACTIVE_OWNER is left unchanged by every further check |
| `Authority.EpochsOnlyIncrease` | internal/authority/lease.go:118-197 | Along one chain of authority (renewals, recoveries by the current holder after an expiry, saves, confirmed migrations) where each migration packages a checkpoint of the current major version, every epoch supersedes all earlier ones |
| `Authority.MigrationSupersedesIff` | internal/migration/service.go:144-178 | A migration's epoch supersedes the current one if and only if the packaged checkpoint carries the current major version |
| `Authority.StaleCheckpointRepeatsAnEpoch` | internal/migration/service.go:144-178 | Recover and then migrate on the older checkpoint: the same epoch is granted twice |
| `Authority.Lease.constructor` | internal/authority/lease.go:51-59 | A new lease is ACTIVE_OWNER at epoch (0,0) with a full duration |
| `Authority.Lease.FromMigration` | internal/authority/lease.go:63-71 | A migrated lease is ACTIVE_OWNER at (source major + 1, 0) |
| `Authority.Lease.FromCheckpoint` | internal/authority/lease.go:75-83 | A lease restored from a checkpoint keeps its epoch and gets a full duration |
| `Authority.Lease.Renew` | internal/authority/lease.go:118-128 | From ACTIVE_OWNER within grace: next generation, new expiry; otherwise refused unchanged |
| `Authority.Lease.ValidateForTick` | internal/authority/lease.go:134-143 | Allowed only in ACTIVE_OWNER within grace; past grace the lease turns RECOVERY_REQUIRED |
| `Authority.Lease.TransitionToHandoff` | internal/authority/lease.go:146-152 | ACTIVE_OWNER to HANDOFF_INITIATED, otherwise refused unchanged |
| `Authority.Lease.TransitionToRetired` | internal/authority/lease.go:155-161 | From either handoff state to RETIRED, otherwise refused unchanged |
| `Authority.Lease.RevertHandoff` | internal/authority/lease.go:170-176 | HANDOFF_INITIATED back to ACTIVE_OWNER with epoch and expiry kept, otherwise refused unchanged |
| `Authority.Lease.Recover` | internal/authority/lease.go:188-197 | RECOVERY_REQUIRED to ACTIVE_OWNER at (major + 1, 0) with a full duration, otherwise refused unchanged |
| `Authority.Lease.CheckAndRenewLease` | internal/runner/research/research.go:71-90 | Validate, then renew if due; an allowed check changes the lease exactly when the time left is at most duration times renewal window; a failed renewal does not deny the tick |
| `Checkpoints.ParseOfBytes` | internal/agent/instance.go:828-884 | Parsing an encoded header gives back header and state in all three versions, and fails exactly when budget or price is negative |
| `Checkpoints.BytesOfParse` | internal/agent/instance.go:828-884 | Whatever parses is the encoding of what was parsed, with non-negative budget and price: no byte is ignored |
| `Checkpoints.BuiltSays` | internal/agent/instance.go:702-755 | Read back, a checkpoint has its builder's budget, price, tick and binary, its lease's epoch and expiry or zeros without a lease, and under an identity the predecessor's hash and the public key |
| `Checkpoints.HeaderFieldsAt` | internal/agent/instance.go:828-884 | Every header field by byte position, in all three versions |
| `Checkpoints.ParsesIff` | internal/agent/instance.go:828-884 | A file parses exactly if its version byte is 2, 3 or 4, it is long enough for it, and the top bits of budget and price are clear |
| `Checkpoints.LoadsIff` | internal/agent/instance.go:759-794 | A stored file loads exactly if it parses, is for the instance's binary, and a version 4 signature verifies under the key in it over all other bytes; then meter and chain hash are the file's, and otherwise nothing changes |
| `Checkpoints.LoadOfBuilt` | internal/agent/instance.go:702-823 | A built checkpoint loads in any instance of the same binary exactly when budget and price are not negative; then meter and state are restored and the hash chain continues; on failure the instance is unchanged |
| `Checkpoints.SplitAtSignature` | pkg/lineage/lineage.go:81-89 | The signing domain of a built version 4 checkpoint is the first 145 bytes and the state, and the signature sits between them |
| `Checkpoints.SignedBytesAreAllButTheSignature` | pkg/lineage/lineage.go:81-89 | In every version 4 file that parses, signed bytes and signature together are the whole file |
| `Checkpoints.Checkpointer.BuildCheckpoint` | internal/agent/instance.go:702-755 | Version 3 without an identity, signed version 4 with one, filled at fixed offsets; the chain hash becomes the new file's exactly when a signed one was built |
| `Checkpoints.Checkpointer.LoadCheckpoint` | internal/agent/instance.go:759-801 | Order of the checks (parse, binary hash, signature), and which fields are restored |
| `Chains.ValidIff` | internal/inspector/chain.go:51-156 | Two or more files are valid if and only if all are readable, properly signed version 4 checkpoints under one key, each naming its predecessor's hash, with strictly increasing ticks |
| `Chains.ErrorsSay` | internal/inspector/chain.go:51-156 | The reported errors are exactly the faults that are true of some file: unreadable, unparsable, a signature that does not verify over all other bytes, or behind the first file a missing lineage, a tick not after the readable file before, another hash than that file's, or another key than the first file's |
| `Chains.NumbersSay` | internal/inspector/chain.go:51-128 | The report's count, first and last tick and key, and what each file is compared with: the readable file before it and the first file's key |
| `Chains.SingleFileValidIff` | internal/inspector/chain.go:131-137 | One file alone is valid when it parses and its signature, if it has one, is good |
| `Chains.LastCheckpointFixesHistory` | internal/inspector/chain.go:139-156 | Of two linked histories with the same last checkpoint the shorter is the end of the longer, or two of their files are a hash collision |
| `Chains.EqualLengthHistoriesAreIdentical` | internal/inspector/chain.go:51-156 | Two valid histories of equal length with the same last checkpoint are identical, or two of their files are a hash collision |
| `Chains.UnreadableFails` | internal/inspector/chain.go:61-71 | A file that cannot be read or parsed spoils any history |
| `Chains.ErrorsStay` | internal/inspector/chain.go:60-79 | Once an error is reported no later file removes it |
| `Chains.SegmentsAreRunLength` | internal/inspector/chain.go:159-174 | Whatever the files hold, the segments are the run-length encoding of the readable headers' WASM hashes with first and last ticks, and the count is theirs |
| `Chains.RunLengthIsUnique` | internal/inspector/chain.go:159-174 | A sequence of headers has only one such encoding |
| `Chains.VerifyLineage` | internal/inspector/chain.go:131-156 | The faults found in one file's signature, predecessor hash and key, in order |
| `Chains.UpdateSegments` | internal/inspector/chain.go:159-174 | Extend the current segment or start a new one |
| `Chains.VerifyCheckpoint` | internal/inspector/chain.go:107-128 | One file's effect on report and chain state |
| `Chains.VerifyChain` | internal/inspector/chain.go:51-82 | The loop over all files computes the specified report; valid exactly when no error was added; no files is an error |
| `Histories.MergedHistoryVerifies` | internal/agent/instance.go:702-823 | After any run of launches, ticks, saves, stops, copies and resumes from the latest checkpoint over any number of hosts, under the stated conditions, the merged archives in name order are exactly the saved checkpoints in order, and the chain verifies |
| `Histories.DirectoryVerifiesIff` | internal/inspector/chain.go:84-104 | A directory holding a linked history verifies if and only if its file names sort in tick order |
| `Histories.NamesSortAsTicks` | internal/storage/fs_provider.go:379 | Zero-padded names sort like the tick numbers below 10^10 |
| `Histories.NamesAreDistinct` | internal/storage/fs_provider.go:379 | Different ticks have different names, at any size |
| `Histories.NameSays` | internal/storage/fs_provider.go:379 | A name is the tick in decimal with leading zeros up to ten digits, and the extension |
| `Histories.ArchiveSays` | internal/storage/fs_provider.go:365-389 | A file is archived under the tick in its bytes 17 to 24, unless that name is taken |
| `Histories.NameOrderBreaksAtLimit` | internal/storage/fs_provider.go:379 | The name of tick 10^10 sorts before the name of the tick before it |
| `Histories.HistoryBreaksAtLimit` | internal/inspector/chain.go:102 | A history that saves at both of these ticks no longer verifies from its directory |
| `Histories.SecondSaveAtATick` | internal/storage/fs_provider.go:381-384 | After a second save at an archived tick, a tick and one more save, the directory verifies if and only if the second file has the first one's hash |
| `Histories.SecondSaveIsNeverTheSame` | internal/agent/instance.go:739-752 | From the second checkpoint on such a second save always writes another file, unless the last two checkpoints already collide |
| `Histories.SecondSaveBreaksARun` | internal/storage/fs_provider.go:381-384 | The failing run, from an empty host: launch, tick, save, tick, save, save, tick, save; its directory does not verify as long as the files concerned do not collide |
| `Histories.MergedHistoryVerifiesIff` | internal/agent/instance.go:849-856 | Of all runs that save anything, the other conditions as before, exactly those verify that never save a negative budget or price; the merged directory lists every saved file in order in either case |
| `Histories.SaveLinks` | internal/agent/instance.go:718-752 | One save at a later tick extends a linked history by a signed successor |
| `Histories.LoadContinues` | internal/agent/instance.go:759-794 | Loading the latest checkpoint succeeds exactly with the binary that made it, and then continues its chain |
| `Histories.StoringKeeps` | internal/storage/fs_provider.go:365-389 | Storing a saved or copied checkpoint keeps archives holding saved checkpoints only, and every saved checkpoint in some archive |
| `Histories.SortedIsUnique` | internal/inspector/chain.go:102 | A set has only one enumeration sorted by a strict order |
| `Histories.FSProvider.SaveCheckpoint` | internal/storage/fs_provider.go:60-116 | At whatever step a save fails, the checkpoint is the old one or the new one; no temporary file is left behind; the archive changes only after a successful rename |
| `Histories.FSProvider.ArchiveCheckpoint` | internal/storage/fs_provider.go:365-389 | A tick that is already archived is skipped, whatever its content |
| `Resaves.DirectoryVerifiesIffNothingLost` | internal/storage/fs_provider.go:381-384 | For every run on one host, saves at the latest checkpoint's tick included, the directory lists the first file saved at each tick, and verifies if and only if, of every tick with a later one behind it, the last file saved has that first file's hash |
| `Resaves.FirstsLinkedIff` | internal/inspector/chain.go:110-145 | The same about any chain of saves: the first files of its ticks are linked exactly if no tick with a later one behind it was left with another hash |
| `Resaves.StoringKeepsFirsts` | internal/storage/fs_provider.go:365-389 | Whether a save is the first at its tick or not, the archive holds exactly the first file of each tick |
| `EventLogs.EventLog.BeginTick` | internal/eventlog/eventlog.go:64-72 | A new empty log becomes current; everything sealed is unaffected |
| `EventLogs.EventLog.Record` | internal/eventlog/eventlog.go:76-98 | The bytes passed are appended to the current tick and every earlier entry, current or sealed, still shows what it did; nothing is recorded between ticks |
| `EventLogs.EventLog.SealTick` | internal/eventlog/eventlog.go:102-124 | The current log joins the sealed ones, unchanged, and the history is the last maxTicks of all sealed logs in order (all of them for 0) |
| `EventLogs.EventLog.ReadEntry` | internal/eventlog/eventlog.go:138-144 | Reading any retained entry gives the bytes that were recorded |
| `EventLogs.TickLog.Observations` | internal/eventlog/eventlog.go:126-135 | All entries read back are what was recorded, in order |
| `EventLogs.TickLog.Append` | internal/eventlog/eventlog.go:83-97 | Whether the payload goes to the arena or the heap, all entries show their recorded bytes |
| `EventLogs.TickLog.Place` | internal/eventlog/eventlog.go:84-92 | The copy does not touch any earlier entry's stretch of the arena |
| `EventLogs.RecordFromReusedBuffer` | internal/eventlog/eventlog.go:74-75 | Overwriting the caller's buffer afterwards changes nothing that was recorded |
| `EventLogs.LastSays` | internal/eventlog/eventlog.go:110-121 | What is kept is the newest maxTicks in order, or all of them |
| `EventLogs.LastAppended` | internal/eventlog/eventlog.go:114-121 | Trimming after every append keeps the last maxTicks of everything appended |
| `Replays.ReplaysIffSucceeds` | internal/replay/engine.go:301-456 | A single hostcall's own record replays to the same reply without error if and only if the live call succeeded on non-empty arguments |
| `Replays.AnswersSay` | internal/hostcall/wallet.go:27-62 | What every hostcall answers, records and charges, told from the world, the wallet and the budget, refusals included |
| `Replays.NumbersSay` | internal/eventlog/eventlog.go:13-23 | Every kind of hostcall is recorded under its own number |
| `Replays.ReachedIff` | internal/replay/engine.go:151-184 | A replayed tick gets through exactly if the call returns, no hostcall failed and every entry was used; then the calls it asked for are the recorded ones, one for one, in order, with payloads fit for them |
| `Replays.FailuresSay` | internal/replay/engine.go:301-456 | What a replayed hostcall answers without an entry of its kind, and on a payload that is not fit for it |
| `Replays.VerdictSays` | internal/replay/engine.go:498-632 | A chain verifies exactly if its state restores, every tick gets through and the final state has the expected hash; the tick that fails first is named |
| `Replays.SuccessIsReplayed` | internal/replay/engine.go:301-456 | The recorded payload of a successful call decodes to the live reply |
| `Replays.PaymentIsReplayed` | internal/replay/engine.go:807-849 | For wallet_pay the receipt written to memory is rebuilt from the recorded observation |
| `Replays.ReplayFollowsLive` | internal/replay/engine.go:151-184 | For any deterministic agent, a live tick whose calls all succeed is followed call by call by the replay of its log, which consumes every entry in order and reaches the same state |
| `Replays.RecordedTickVerifies` | internal/replay/engine.go:85-212 | If restoring undoes capturing, such a tick replays from its captured pre-state with no error to the captured post-state |
| `Replays.ChainIsFold` | internal/replay/engine.go:574-632 | One instance through all snapshots and single-tick replays one after the other fail at the same tick for the same reason, or end in the same state |
| `Replays.RecordedChainReplays` | internal/replay/engine.go:574-615 | Consecutive recorded ticks replay as a chain to the last live state |
| `Replays.RecordedChainVerifies` | internal/replay/engine.go:498-632 | A recorded chain verifies against the hash of the live final state |
| `Replays.FirstDiff` | internal/replay/engine.go:900-914 | The first position where two byte strings differ, one being a proper prefix included, or -1 exactly when they are equal |
| `Replays.EntryIterator.NextEntry` | internal/replay/engine.go:221-237 | The next entry if it is of the expected kind; otherwise nothing is consumed |
| `Replays.ReplayHost.Serve` | internal/replay/engine.go:301-456 | One replayed hostcall: entry consumed, reply decoded, error remembered |
| `Replays.ReplayHost.CallTick` | internal/replay/engine.go:161-172 | The whole agent_tick call against the log |
| `Replays.ReplayHost.ReplayEntries` | internal/replay/engine.go:574-612 | Fresh iterator, cleared error, tick, then the error and leftover checks in order |
| `Replays.ReplayTick` | internal/replay/engine.go:85-212 | Verified exactly when the replayed state equals the expected one; otherwise the first difference or the fault that stopped it |
| `Replays.ReplayChain` | internal/replay/engine.go:498-632 | The loop computes the specified verdict, with the failing tick and the count of replayed ones |
| `Replays.VerifyNextTick` | internal/runner/research/research.go:124-178 | The oldest snapshot after the last verified tick that has entries is replayed; divergence is reported exactly when its replay fails or ends in a state with another hash; with none left nothing changes |
| `Replays.RecordedSnapshotIsConfirmed` | internal/runner/research/research.go:142-176 | A snapshot taken of a live tick whose hostcalls all succeed is never reported as diverged |
| `Replays.ConfirmedIffReplayed` | internal/runner/research/research.go:160-167 | A snapshot of some post-state passes exactly when its replay reaches that state, provided the hash tells the two states apart |
| `Replays.VerifiedIsBehind` | internal/runner/research/research.go:133-139 | In a window in tick order each verification moves on past the snapshot it verified |
| `Instances.GuardIsExact` | internal/agent/instance.go:521-531 | The overflow guard takes its cap branch exactly when the int64 product would overflow |
| `Instances.CostBounds` | internal/agent/instance.go:521-531 | A tick costs no more than the budget or 9,223,372,036, and never less than zero |
| `Instances.CostSays` | internal/agent/instance.go:521-531 | The cost is nanoseconds times price over 10^9, exact but for a fraction of one unit; a product beyond int64 takes all that is left |
| `Instances.CostsFollowWork` | internal/agent/instance.go:521-531 | Over a whole process without a capped tick, the sum of nanoseconds times price is at least 10^9 times the costs and exceeds that by less than 10^9 for each completed tick |
| `Instances.WindowSays` | internal/agent/instance.go:495-519 | A full window loses the first of the snapshots with the fewest entries, the newest excepted |
| `Instances.WindowKeepsTheMostObserved` | internal/agent/instance.go:495-519 | After any run the window holds min(n, max) of the n completed ticks, max being 16 by default, and nothing it dropped recorded more than what it kept, nor as much and later |
| `Instances.TickKeepsWindow` | internal/agent/instance.go:495-519 | After a tick the window is the newest snapshot behind the best max-1 of all earlier ones, if it was so before |
| `Instances.EvictionKeepsTopK` | internal/agent/instance.go:500-519 | Evicting the lowest score, first of equals, turns the best k of the earlier ticks plus one into the best k of all |
| `Instances.TopKIsUnique` | internal/agent/instance.go:105-110 | There is only one such selection, so any offline computation gives the same window |
| `Instances.WindowIsOfflineTopK` | internal/agent/instance.go:495-519 | After any run the window is the newest completed tick behind the top max-1 of the rest by observation count, ties to the newer, in tick order |
| `Instances.BudgetIsConserved` | internal/agent/instance.go:437-531 | Within one process, starting budget equals current budget plus all tick costs plus all payments, and the budget never drops below -9,223,372,036 |
| `Instances.OverdraftBoundIsTight` | internal/agent/instance.go:521-531 | A run of one process, from budget 1, that ends with the budget at that bound |
| `Instances.OverdrawnCheckpointIsLost` | internal/agent/instance.go:849-856 | What that process saves then cannot be loaded by any instance, with or without an identity |
| `Instances.ReceiptsTileAndAccount` | internal/agent/instance.go:227-247 | The first receipt starts at tick 1 and each other one tick after the previous one ended, across restarts too, and receipt costs plus the open epoch's cost equal all tick costs of the process |
| `Instances.ReceiptsCarryTheCosts` | internal/agent/instance.go:227-247 | In one process the cost fields of the issued receipts and the open epoch add up to all that its ticks cost |
| `Instances.ReceiptSays` | internal/agent/instance.go:227-247 | A checkpoint's receipt names agent, node, the ticks since the last one, their cost, the remaining budget and the time, under a signature its signer's key verifies |
| `Instances.ReceiptsCoverIff` | internal/agent/instance.go:227-247 | In any run, restarts included, every issued receipt is for at least one tick if and only if each is cut at a later tick than the last receipt's end |
| `Instances.SecondReceiptCoversNothing` | internal/agent/instance.go:227-247 | The failing case: two checkpoints at one tick, and the second receipt ends before it starts |
| `Instances.TicksCoveredOnce` | internal/agent/instance.go:227-247 | In a tiling whose receipts all are for some tick, every tick up to the last end is in exactly one receipt |
| `Instances.CheckpointKeeps` | internal/agent/instance.go:662-698 | Saving a checkpoint, whether or not the receipt file is written, keeps ledger, tiling, stored file and window |
| `Instances.PaymentsStayWithinBudget` | internal/agent/instance.go:199-205 | Payments within a tick never exceed the budget |
| `Instances.Instance.DeductBudget` | internal/agent/instance.go:199-205 | Deducts exactly when the budget covers the amount |
| `Instances.Instance.WalletPay` | internal/hostcall/payment.go:84-139 | The budget drops by exactly what the payment charges |
| `Instances.Instance.Meter` | internal/agent/instance.go:521-531 | The budget drops by nanoseconds times price over 10^9, exact but for a fraction of one unit, or by all that is left when that product passes int64; the open epoch grows by as much |
| `Instances.Instance.Remember` | internal/agent/instance.go:495-519 | The loop and in-place removal compute the specified window |
| `Instances.FindEvicted` | internal/agent/instance.go:503-516 | The lowest score before the newest snapshot, the first of equals |
| `Instances.Instance.CreateReceipt` | internal/agent/instance.go:227-247 | The receipt of the epoch since the last one; none without a signing key |
| `Instances.Instance.LoadMetering` | internal/agent/instance.go:796-815 | Budget and tick are restored; a stored receipt list that parses replaces the receipts, and its last end is where the next receipt continues; anything else leaves receipts and that mark alone |
| `LiveTicks.LiveRunConservesAndReplays` | internal/agent/instance.go:437-549 | For every run of ticks of any deterministic agent, saves and resumes in which the hostcalls of completed ticks succeed: the process's money is conserved and every snapshot in its window replays to the state it was taken of |
| `LiveTicks.RunKeepsConfirmed` | internal/runner/research/research.go:124-178 | From any window that replays, such a run leads to one that does |
| `LiveTicks.TickIsTheCall` | internal/agent/instance.go:437-531 | The ledger's tick is the agent's call: it completes exactly when the call returns and both captures succeed, costs what its hostcalls charge plus the metered time, and keeps the captured states with the recorded log |
| `LiveTicks.ChargesArePayments` | internal/hostcall/payment.go:84-139 | Over a whole call the budget drops by what its payments charge one after the other, and by nothing else |
| `LiveTicks.BalanceIsWhatIsLeft` | internal/hostcall/wallet.go:27-31 | An agent that asks for its balance after any hostcalls of a tick is told, and goes on with, the tick's starting budget less what its payments so far have cost |
| `LiveTicks.AgentIsTold` | internal/hostcall/pricing.go:22-27 | Within a tick the price is the instance's, receipts and their number are its own as marshalled, the balance is its budget, and clock and random bytes are the host's |
| `LiveTicks.SnapshotIsConfirmed` | internal/runner/research/research.go:142-176 | The snapshot of a completed tick whose hostcalls succeed replays to the state it was taken of |
| `LiveTicks.Tick` | internal/agent/instance.go:437-549 | On the instance's fields and its event log: where the tick stops decides what changes, the budget, window and epoch are those of the ledger's tick, the sealed log holds exactly what the call recorded under the new tick number, for a failed call too, and the hint is passed on only by a completed tick |
| `LiveTicks.CallTick` | internal/agent/instance.go:469-471 | The loop of hostcalls ends in the state, budget and log of the specified call |
| `LiveTicks.CallLogged` | internal/agent/instance.go:458-474 | What is sealed after the call is what its hostcalls recorded, in order, behind everything sealed before |
| `LiveTicks.Hostcall` | internal/hostcall/wallet.go:27-62 | One hostcall on the instance and its log: balance, price, clock, random bytes, receipts and payments are answered with their own values, charged and recorded |
| `Payments.ChargedOnceIff` | internal/hostcall/payment.go:51-190 | The budget is charged exactly when every check passes, once and never below zero; only a receipt buffer out of bounds charges without succeeding |
| `Payments.CodesSay` | internal/hostcall/payment.go:62-190 | Each error code exactly when its own check is the first to fail, and otherwise the number of bytes written; the size hint exactly for a short buffer that can hold it |
| `Payments.ReceiptSays` | internal/hostcall/payment.go:140-165 | Amount, time, recipient, memo and key at their places in the receipt, and the key in it verifies its signature over all of them |
| `Payments.ObservationRebuildsReceipt` | internal/hostcall/payment.go:140-185 | The recorded observation holds the receipt exactly as written to memory |
| `Payments.BuildReceipt` | internal/hostcall/payment.go:140-165 | The buffer filled field by field and then signed is the specified receipt |
| `Receipts.SignDataInjective` | pkg/receipt/receipt.go:30-47 | Receipts with the same signed bytes agree on every signed field |
| `Receipts.SignDataSays` | pkg/receipt/receipt.go:30-47 | Every signed field by byte position |
| `Receipts.ListSays` | pkg/receipt/receipt.go:70-184 | A receipt is its signed bytes and its prefixed signature; a list is a count and each receipt behind its length, in order |
| `Receipts.ParseReceiptBytes` | pkg/receipt/receipt.go:70-171 | A marshalled receipt parses back unchanged |
| `Receipts.ParseReceiptsBytes` | pkg/receipt/receipt.go:175-211 | A marshalled receipt list parses back unchanged |
| `Receipts.MarshalSignData` | pkg/receipt/receipt.go:30-47 | The signed byte layout |
| `Receipts.MarshalBinary` | pkg/receipt/receipt.go:70-78 | Signed bytes and then the length-prefixed signature |
| `Receipts.MarshalReceipts` | pkg/receipt/receipt.go:175-184 | A count and then the length-prefixed receipts |
| `Receipts.UnmarshalBinary` | pkg/receipt/receipt.go:81-171 | The reader's parse; any short read is an error |
| `Receipts.UnmarshalReceipts` | pkg/receipt/receipt.go:187-211 | The loop's parse; any short or bad entry is an error |
| `Effects.EveryRunIsAtMostOnce` | sdk/igor/effects.go:57-231 | In every run of Record, Begin, Confirm, Compensate, Prune, saves and restores with never-reused IDs, IDs stay distinct, on the live history no intent is begun or settled twice, and the save unmarshals to the saved log under the resume rule |
| `Effects.BegunCanSettle` | sdk/igor/effects.go:71-111 | An intent that was just begun can be confirmed and can be compensated |
| `Effects.OperationsSay` | sdk/igor/effects.go:57-111 | Each operation on the first intent with the ID, by the stored state numbers: what is refused and how, what changes, and nothing else |
| `Effects.PruneSays` | sdk/igor/effects.go:149-161 | Pruning a log in two parts is pruning each part: order is kept |
| `Effects.SelectionSays` | sdk/igor/effects.go:114-134 | The same for the unresolved and the pending intents |
| `Effects.RestoreSays` | sdk/igor/effects.go:185-221 | Each intent comes back with its ID and data, as Unresolved if it was InFlight and otherwise in its own state |
| `Effects.LayoutSays` | sdk/igor/effects.go:171-181 | A count, and behind it each intent's state, ID and data |
| `Effects.BegunBySaveNeverBeginsAgain` | sdk/igor/effects.go:71-81 | An intent begun by a save can never be begun in any later run, restores included |
| `Effects.SettledBySaveNeverSettlesAgain` | sdk/igor/effects.go:85-111 | An intent settled by a save can never be settled in any later run |
| `Effects.BeginAfterCrashIff` | sdk/igor/effects.go:185-221 | After a restore an intent can be begun exactly if the save holds it as Recorded |
| `Effects.RestoreAppliesResumeRule` | sdk/igor/effects.go:171-221 | Unmarshalling a marshalled log gives the log with only InFlight turned into Unresolved |
| `Effects.StepKeepsInv` | sdk/igor/effects.go:57-161 | Every operation keeps IDs distinct and the counts of begins and settlements consistent with the states |
| `Effects.EffectLog.FindIndex` | sdk/igor/effects.go:224-231 | The index of the first intent with the ID |
| `Effects.EffectLog.Record` | sdk/igor/effects.go:57-67 | Appends a Recorded intent unless the ID is taken |
| `Effects.EffectLog.Begin` | sdk/igor/effects.go:71-81 | Recorded to InFlight; anything else is refused unchanged |
| `Effects.EffectLog.Confirm` | sdk/igor/effects.go:85-95 | InFlight or Unresolved to Confirmed; anything else is refused unchanged |
| `Effects.EffectLog.Compensate` | sdk/igor/effects.go:101-111 | InFlight or Unresolved to Compensated; anything else is refused unchanged |
| `Effects.EffectLog.Prune` | sdk/igor/effects.go:149-161 | In-place compaction keeps exactly the unsettled intents in order |
| `Effects.EffectLog.Marshal` | sdk/igor/effects.go:171-181 | The byte layout of the log |
| `Effects.EffectLog.Unmarshal` | sdk/igor/effects.go:185-221 | The parse, the resume rule, and stopping at the first short read |
| `Effects.EffectLog.UnresolvedIntents` | sdk/igor/effects.go:126-134 | The Unresolved intents in order |
| `Effects.EffectLog.Pending` | sdk/igor/effects.go:114-122 | The unsettled intents in order |
| `Encoding.BytesWritten` | sdk/igor/encoding.go:54-147 | A written byte string followed by anything is read back, leaving what follows |
| `Encoding.Uint64Written` | sdk/igor/encoding.go:28-110 | The same for uint64 |
| `Encoding.Int64Written` | sdk/igor/encoding.go:36-115 | The same for int64 |
| `Encoding.Uint32Written` | sdk/igor/encoding.go:41-126 | The same for uint32 |
| `Encoding.BoolWritten` | sdk/igor/encoding.go:66-167 | The same for bool |
| `Encoding.TakeWritten` | sdk/igor/encoding.go:78-181 | The same for fixed-length bytes |
| `Encoding.ReadsSay` | sdk/igor/encoding.go:102-181 | Exactly when each read fails, what a failed read leaves, and what a successful one returns and consumes |
| `Bytes.ConversionsAgree` | sdk/igor/encoding.go:36-38 | The conversions between int64 and uint64 keep the value modulo 2^64 |
| `Bytes.U32Layout` | sdk/igor/encoding.go:41-46 | The four bytes of a uint32, least significant first |
| `Bytes.U64Layout` | sdk/igor/encoding.go:28-33 | The low half of a uint64 and then the high half |
| `Encoding.Decoder.Uint64` | sdk/igor/encoding.go:102-110 | A read, or a sticky error that consumes nothing |
| `Encoding.Decoder.Uint32` | sdk/igor/encoding.go:118-126 | A read, or a sticky error that consumes nothing |
| `Encoding.Decoder.Bytes` | sdk/igor/encoding.go:134-147 | Length, then bytes; a length past the end is a sticky error |
| `Encoding.Decoder.Bool` | sdk/igor/encoding.go:159-167 | One byte, zero or not, or a sticky error |
| `Encoding.Decoder.FixedBytes` | sdk/igor/encoding.go:172-181 | Exactly n bytes, or a sticky error |
| `Encoding.Encoder.Bytes` | sdk/igor/encoding.go:54-58 | Appends the length and the bytes |
| `Encoding.Encoder.Uint64` | sdk/igor/encoding.go:28-33 | Appends eight bytes, least significant first |
| `Encoding.Encoder.Uint32` | sdk/igor/encoding.go:41-46 | Appends four bytes, least significant first |
| `Encoding.Encoder.Bool` | sdk/igor/encoding.go:66-73 | Appends one byte, 1 or 0 |
| `Sentinels.TreasuryIsConserved` | agents/sentinel/main.go:60-220 | In every state after the first tick, over ticks, crashes and restores of saves at tick ends or right after Begin, Balance + SpendTotal = 1,000,000 + 500,000 * RefillCount, Balance is at most 1,000,000 and at most one intent is in the log |
| `Sentinels.ZeroClockBreaksConservation` | agents/sentinel/main.go:62-70 | The first two ticks conserve the treasury if and only if the first clock reading is not zero |
| `Sentinels.RefillWithin141Spends` | agents/sentinel/main.go:105-121 | No 141 consecutive ticks from a reachable state all spend without recording a refill |
| `Sentinels.ResumeAfterMarshal` | agents/sentinel/main.go:230-260 | A marshalled sentinel unmarshals to itself with only the resume rule applied to its log |
| `Sentinels.TickKeepsLawful` | agents/sentinel/main.go:60-121 | Every tick keeps the treasury conserved and bounded with at most one pending intent |
| `Sentinels.TickSays` | agents/sentinel/main.go:60-121 | What a tick of a reachable state does: without an intent it spends 5,000 to 24,999 or what is left, and records a refill exactly when less than 300,000 remains; a recorded intent is executed and credited; an unresolved one is credited exactly if its key's first byte is even; the next tick is asked for at once exactly after an intent was settled |
| `Sentinels.FirstTickSays` | agents/sentinel/main.go:60-121 | The first tick sets birth, clock, generator and a treasury of 1,000,000, and spends from it |
| `Sentinels.ReconcileCreditsIff` | agents/sentinel/main.go:188-220 | In any log, an unresolved refill is credited and confirmed if its key's first byte is even, and compensated without a credit if it is odd |
| `Sentinels.XorShiftSays` | agents/sentinel/main.go:223-228 | The generator's value after 1 |
| `Sentinels.AgeSays` | agents/sentinel/main.go:70 | The age in a refill is the number of whole seconds since birth |
| `Sentinels.LayoutSays` | agents/sentinel/main.go:230-242 | Every saved field by byte position |
| `Sentinels.Sentinel.Tick` | agents/sentinel/main.go:60-121 | The tick's branches: reconcile, execute, spend, or record a refill; it asks for a fast next tick only after it has settled something |
| `Sentinels.Sentinel.ReconcileAll` | agents/sentinel/main.go:72-86 | Every unresolved intent is settled by the bridge's answer |
| `Sentinels.Sentinel.Reconcile` | agents/sentinel/main.go:188-220 | A completed refill is credited and confirmed, otherwise compensated |
| `Sentinels.Sentinel.ExecuteRefill` | agents/sentinel/main.go:154-182 | Begin, credit, confirm and prune; true exactly when it got to the confirmation |
| `Sentinels.Sentinel.RecordRefillIntent` | agents/sentinel/main.go:125-150 | A refill intent with a fresh key and the amount |
| `Sentinels.Sentinel.Marshal` | agents/sentinel/main.go:230-242 | The byte layout |
| `Sentinels.Sentinel.Unmarshal` | agents/sentinel/main.go:244-260 | The parse with the resume rule |
| `Deploy.TermsReachWalletPay` | cmd/mockcloud/main.go:197-211 | Terms encoded into a 402 body reach wallet_pay unchanged after parse, intent encoding, effect log and agent marshal, unmarshal and intent decoding |
| `Deploy.ParseEncoded` | agents/deployer/main.go:544-567 | Parsing encoded terms gives them back for recipients and memos below 2^31 bytes |
| `Deploy.PaymentCallOfIntent` | agents/deployer/main.go:172-215 | The payment an intent's data decodes to is the one it was made from |
| `Deploy.PaymentCallIff` | agents/deployer/main.go:193-215 | An intent pays exactly the terms whose encoding stands behind its first byte |
| `Deploy.CutOffBody` | agents/deployer/main.go:544-567 | A body cut off before the recipient's end gives no terms, one cut off later everything but the memo |
| `Deploy.PaymentSays` | agents/deployer/main.go:193-238 | What one payment does by the intent's stored state: only a recorded one is paid; only a payment that went through counts, adds its amount and moves the agent on; paid or not, the intent is settled and pruned; undecodable data is compensated where possible |
| `Deploy.LayoutSays` | agents/deployer/main.go:466-480 | Every saved field by byte position |
| `Deploy.ResumeAfterMarshal` | agents/deployer/main.go:466-508 | A marshalled deployer unmarshals to itself with only the resume rule applied to its log |
| `Deploy.EncodePaymentTerms` | cmd/mockcloud/main.go:197-211 | The buffer filled at a moving offset holds the specified layout |
| `Deploy.ParsePaymentTerms` | agents/deployer/main.go:544-567 | The parse at a moving offset, short inputs giving empty fields |
| `Deploy.Deployer.RecordPaymentIntent` | agents/deployer/main.go:172-191 | Records the encoded terms as an intent under the given key; a taken key is refused |
| `Deploy.Deployer.ExecutePayment` | agents/deployer/main.go:193-238 | Begin, pay, then confirm with updated totals or compensate; for undecodable data only compensation is attempted; true exactly when the wallet was called and paid |
| `Deploy.Deployer.Marshal` | agents/deployer/main.go:466-480 | The byte layout |
| `Deploy.UnmarshalAgent` | agents/deployer/main.go:482-508 | The parse with the resume rule |
| `Liquidation.ContinuousNotAlive` | agents/liquidation/main.go:72-174 | For every non-decreasing clock and schedule of ticks, stops and resumes from any save after the first tick, the last slot is the number of whole seconds between birth and last tick, and the watcher's high, low, latest price, first warning slot and warning flag are those of seeing slots 0 to that one once each in order |
| `Liquidation.ScheduleDoesNotMatter` | agents/liquidation/main.go:94-151 | Two schedules with the same birth and last tick time end with the same knowledge |
| `Liquidation.HistoryMeaning` | agents/liquidation/main.go:153-208 | That history is the last price, the extremes, and the first slot below the threshold |
| `Liquidation.SeeingAgainChangesNothing` | agents/liquidation/main.go:153-208 | Processing the last slot again changes nothing |
| `Liquidation.CheckpointRoundTrip` | agents/liquidation/main.go:210-240 | A marshalled watcher unmarshals to itself |
| `Liquidation.PricesAreBounded` | agents/liquidation/main.go:72-90 | No slot's price exceeds the highest price of the curve, so prices always fit their fields |
| `Liquidation.PriceSays` | agents/liquidation/main.go:72-90 | Control points have their own prices, slots in between the exact interpolation rounded towards the earlier point, and slots beyond the last one's |
| `Liquidation.TickSays` | agents/liquidation/main.go:94-151 | Counters, clock and birth after a tick: every slot passed since the last one is counted, and at least the current one |
| `Liquidation.LayoutSays` | agents/liquidation/main.go:210-223 | Every saved field by byte position |
| `Liquidation.PricesArePositive` | agents/liquidation/main.go:72-90 | Every slot has a positive price |
| `Liquidation.ComputePriceAtSlot` | agents/liquidation/main.go:72-90 | The search and interpolation loop computes the price curve |
| `Liquidation.LiquidationWatcher.Tick` | agents/liquidation/main.go:94-151 | Birth, current slot with its int64 and uint64 conversions, catch-up and timestamps of one tick, at any clock reading |
| `Liquidation.LiquidationWatcher.CatchUp` | agents/liquidation/main.go:112-135 | The catch-up loop sees the missed slots in order |
| `Liquidation.LiquidationWatcher.ProcessSlot` | agents/liquidation/main.go:153-208 | One slot's effect on the watcher |
| `Liquidation.LiquidationWatcher.Marshal` | agents/liquidation/main.go:210-223 | The byte layout |
| `Liquidation.LiquidationWatcher.Unmarshal` | agents/liquidation/main.go:225-240 | The parse |
| `Base58.DecodeEncode` | pkg/identity/did.go:61-125 | Decoding an encoded byte string gives it back, leading zeros included |
| `Base58.EncodeDecode` | pkg/identity/did.go:61-125 | Encoding what any string over the alphabet decodes to gives that string back |
| `Base58.DecodeEncodeIn` | pkg/identity/did.go:61-125 | The same over any alphabet of 58 distinct characters |
| `Base58.EncodeDecodeIn` | pkg/identity/did.go:61-125 | The same over any alphabet of 58 distinct characters |
| `Base58.ConvertRoundTrip` | pkg/identity/did.go:61-125 | Converting digits between two bases and back gives the same digits, leading zeros included |
| `Base58.Base58Encode` | pkg/identity/did.go:62-88 | The division loop and the in-place reversal compute the specified string |
| `Base58.Base58Decode` | pkg/identity/did.go:91-125 | The multiplication loop computes the specified bytes, and fails on characters outside the alphabet |
| `Base58.Reverse` | pkg/identity/did.go:83-86 | In-place reversal |
| `Base58.ParseDIDInvertsDID` | pkg/identity/did.go:17-59 | ParseDID accepts exactly the strings DID produces for 32-byte keys, and returns that key |
| `Base58.DIDStarts` | pkg/identity/did.go:17-33 | The identifier of every 32-byte key is 56 characters long and starts with did:key:z6Mk |
| `Base58.KnownAnswer` | pkg/identity/did.go:62-88 | 0x0000287fb4cd encodes as 11233QC4 (draft-msporny-base58, section 5) |
| `Base58.ParseDID` | pkg/identity/did.go:36-59 | Prefix, decode and length checks in order |

## Left out

- Authority.Threshold: the renewal threshold is computed over rationals and rounded down, not in floating point.
- Authority.EpochsOnlyIncrease: follows the one holder of authority, and assumes the uint64 counters do not wrap; Protocol.EpochsIncreaseIff covers all nodes, under the same assumption.
- Instances.WindowIsOfflineTopK: assumes the uint64 tick counter does not wrap; so do the ledger and receipt lemmas beside it.
- Instances.BudgetIsConserved: the budget is an unbounded integer; the starting budget is at most MaxInt64 less one tick's cost, so that no int64 wraps.
- Instances.ReceiptsTileAndAccount: assumes receipts and their list fit 32-bit lengths, as the format does.
- Histories.MergedHistoryVerifies: saves succeed, at a later tick than the last save, below tick 10^10; starts and resumes are from the latest checkpoint, `run` with the binary that made it, one instance at a time. A crash between rename and archive copy is a failed save in this sense.
- Histories.FSProvider.SaveCheckpoint: each step fails or succeeds as a whole; a crash inside a step, and directories and paths, are not modelled.
- LiveTicks.LiveRunConservesAndReplays: the agent's state at the start of each tick is any state, and capturing it changes nothing; a tick whose hostcalls do not all succeed may leave a snapshot that does not replay.
- LiveTicks.Tick: the snapshot keeps what the sealed log shows as a value; in the code it is the sealed log itself, which nothing writes to any more. Panics caught around the tick are not modelled.
- Resaves.DirectoryVerifiesIffNothingLost: one host; ticks do not fall between saves, saves succeed with a budget and price that are not negative, below tick 10^10.
- Replays.RecordedTickVerifies: the tick timeout is a number of hostcalls; HTTP calls, which replay does not register, and host modules missing from the manifest are not modelled. Failed and empty calls are covered one at a time by Replays.ReplaysIffSucceeds.
- Replays.ReplayTick: runtime set-up, compilation and `_initialize` failures, and durations.
- Migrations.Service.MigrateAgentWithRetry: runs alone on its node; what other goroutines change meanwhile is only modelled in FinalizeMigration's compare-and-delete and in Protocol. Error texts that do not matter to classification are shortened.
- Migrations.Service.HandleIncomingMigration: decoding the stream, manifest parsing, capability matching, replay verification and WASM start-up are given as findings; numbers in refusal texts are left out.
- Protocol.OneOwner: one agent; restarts of a node's process, which grant a new lease from scratch, are not steps, and neither is the unguarded recovery of the lab runner.
- Nodes without a registered instance: one that still has a stored checkpoint would send it without any lease transition; the state machine sends only from a registered instance in handoff.
- Effects.EveryRunIsAtMostOnce: relative to the last save; an effect executed after it and lost in a crash can be executed again (Effects.BeginAfterCrashIff says which).
- Sentinels.TreasuryIsConserved: the first clock reading is not zero (later ones may be), keys are 16 fresh random bytes, and counters do not wrap.
- Liquidation.ContinuousNotAlive: the clock does not decrease and its int64 difference does not overflow.
- Deploy.TermsReachWalletPay: sizes below 2^31; the 32-bit int of the WASM target is not modelled beyond that.
- Deployer phases other than payment, HTTP, JSON scanning and the hex identifiers: an easy finite machine around the payment path.
- The x402 buyer agent: its payment path is the deployer's with fewer phases.
- Migration without retry: it does not revert the handoff on failure, so it has no outcome contract.
- The SDK wrapper of wallet_pay, which indexes into an empty recipient slice.
- Backoff delays, budget conversion from floating point, and settlement adapters.
- The actions taken on a divergence, chosen by configuration.
- Inspector printing, identity files, receipt signing keys, manifests, peer registry, price discovery, simulator, command-line handling, logging.
- The heartbeat, survivor, reconciliation and price-watcher agents: display or easy finite machines.
