# Suricatoos: protocols, state machines and exact algebra, verified

This project models the parts of the Suricatoos control plane, endpoint agent, ingest plane and sensor
whose correctness is a statement about whole runs or about all inputs, and proves those statements. Dafny
files follow the components of the repository; each imperative component is a class whose methods are
proved against a specification function, and the theorems are lemmas about those functions, about state
machines built from them, and about every run of those machines.

| Component | Files | What is proved about it |
|---|---|---|
| Signed remediation | `Utf8`, `RemediationCanonical`, `RemediationServer`, `RemediationAgent`, `RemediationLaws`, `RemediationProtocol`, `RemediationTurns` | Framing is injective; handlers run only approved jobs, in their time; what each operation answers and leaves; a job's whole life; APPLIED means a handler ran; at most once per lost journal entry; delivery is durable; exactly when a delivered job verifies, and when a filed signature still covers its job. Servers crash, saves fail, messages are lost, duplicated and reordered, agents restart. |
| Self-update | `Versions`, `SelfUpdate`, `SelfUpdateRuns` | The floor never falls; exactly when it stays at or below the running version; when a rolled-back version can return, with runs in which it does; the boot budget; when the backup survives. |
| Tokens and certificates | `Tokens`, `DistinguishedName`, `Enrollment`, `EnrollmentRuns` | A minted token's text works until it expires and for its hosts only; an identity's whole life; in every interleaving of enroll, renew and revoke: a revoked token's certificates are all on the CA's list, uses equal bound agents, agents keep their token, certificates keep its tenant; both subject-name parsers, and exactly when renewal keeps an identity. |
| Scan launch | `ScanRegistry`, `ScanReconciler`, `ScanRuns` | What one tick does to each job; with handlers between any two of its steps the reconciler acts only on jobs that still are what its snapshot says; RUNNING is bounded; one request id per scan history; launches are bounded by reopenings; a stop is for good, also for a reopened job; whose job a replay may reopen. |
| Target gates | `Cidr`, `ScopeGates`, `ScopeSpecs` | What a written spec authorizes, address by address; mask tests are set inclusion and intersection; the sensor's, the cloud's and the importer's gates agree; what a sensor can be made to reach. |
| Scan dispatch | `SensorDispatch`, `SensorRuns` | ACKED means reported; tenants are apart; everything dispatched is in scope; a turn of the sensor's loop is part of the runs. |
| Watchdog | `Lex`, `Watchdog` | The history behind every kill and exactly when it is unbroken; which scan a pass kills. |
| Offline queue | `Lex`, `OfflineQueue` | Names sort as numbers; nothing is lost, deliveries follow storage order, the backlog is bounded. |
| Correlators | `Dotted`, `RpmName`, `Notus`, `Msrc` | What is loaded and what is found; index equals full scan; no duplicates; the version order; patching never adds a finding; the rpm name split is exact. |

Conventions. A Go string is a byte string: one `char` per byte. Clocks, randomness, the outcome of each
write and the answers of foreign programs are parameters. Where Go ranges over a map the model takes the
elements in any order, and where several elements qualify the contract allows any of them. Cryptography is
symbolic: a signature is a free symbol over the signed bytes and a hash is a free symbol over its input. A
method's contract gives its whole new state as a specification function of the old one; the theorems are
about those functions.

## What the proofs found

The code was modelled as it is. In these places it does not do what its comments or its design promise;
each has an exact condition and, where it helps, a concrete input.

- Delivery of remediation payloads. `PollHandler` encodes its response with Go's default JSON encoder, which
  rewrites `<`, `>`, `&`, U+2028 and U+2029 inside the embedded payload (control-plane/remediation/service.go:77-90,
  279-284). The signed hash covers the original bytes, so the agent refuses such a job. It also refuses a job
  whose approver was not well-formed UTF-8, and cannot decode a response over its own limit. A polled job
  verifies if and only if none of the three is the case: `RemediationProtocol.PolledJobVerifies`; input
  `RemediationProtocol.MarkupPayloadNeverVerifies`.
- The approver's name. `ApproveHandler` signs the `X-Operator` header as it came (control-plane/remediation/service.go:212),
  while the response and the file replace bytes that are no UTF-8 (service.go:279-284, registry.go:405-411). The
  filed signature covers the filed job if and only if the approver was well-formed:
  `RemediationProtocol.SignatureCoversCurrentFields`; input "Jos\xe9": `RemediationProtocol.LatinApproverUnsigns`,
  `RemediationProtocol.LatinApproverNeverVerifies`.
- Two equal limits. The server reads 1 MiB of a request (control-plane/remediation/service.go:164) and the agent 1 MiB of
  the response (agent/internal/remediate/client.go:17, 56), which is at least 235 bytes longer than its payload:
  a payload within 235 bytes of the limit is accepted and never arrives: `RemediationCanonical.LongPayloadNeverArrives`;
  the exact condition is the third part of `RemediationProtocol.PolledJobVerifies`.
- Version text. `normalizeVersion` removes one leading `v` and is applied again to stored versions. The second
  reading is never lower, and is higher if and only if the first left a `v` in front of a positive number:
  `Versions.NormalNeverLower`. The floor stays at or below the running version throughout a run if and only if
  the run commits no such version: `SelfUpdateRuns.FloorNeverExceedsRunning`. A commit lets a quarantined version
  back in if and only if that version is newer than the running one and its stored form reads the same as the
  committed one: `SelfUpdateRuns.LosesQuarantinedIff`. Input: "vv1.2" reads as 0.2 when running and as 1.2 when
  committed, and after it "1.2", rolled back before, is applied again: `SelfUpdateRuns.RolledBackReturns`.
- Quarantine compares normalized text and ordering compares numbers, so "1.2" and "1.2.0" are one version to the order
  and two to the quarantine (agent/internal/update/state.go:41-53). Once a version was rolled back, a target with
  its numbers is applied if and only if its own text is not listed, the floor does not exceed it and it is newer
  than the running version: `SelfUpdateRuns.OtherSpellingIff`; a run with these two texts:
  `SelfUpdateRuns.SameNumbersReturn`.
- The backup of an update in flight. An `Apply` for another version that stops after its backup copy leaves the old
  marker pointing at the wrong backup: `SelfUpdateRuns.BackupSurvivesApply` (if and only if). A rollback whose restart
  request fails leaves a process on a binary that is no longer on disk: `SelfUpdateRuns.BackupSurvivesBoot` (if and only if).
- Renewal re-reads the subject with a parser that ignores backslash escapes (control-plane/enroll/enroll.go:321-341), so
  a tenant such as "Acme, Inc" changes at the first renewal, and so does "São Paulo", whose bytes outside ASCII the
  proxy writes as hex pairs: `Enrollment.RenewalKeepsIdentity` (if and only if), `Enrollment.CommaTenantIsLost`,
  `Enrollment.AccentedTenantIsLost`. The other parser reads single-character escapes and not hex pairs:
  `DistinguishedName.HexPairIsNotUndone` (if and only if).
- `Consume` counts a use even when no agent is named, which binds nobody: uses and agents part if and only if a
  usable token is spent so: `Tokens.ConsumeConserves`.
- A stopped scan reopened by a new request keeps its stop flag. A reopened job is due for launch at the next tick
  if and only if the flag is clear: `ScanReconciler.ReopenedIsDueIff`, `ScanReconciler.LaunchedIff`; from any
  stopped job the retry ends STOPPED again: `ScanRuns.RetryEndsStopped`; a whole run of it:
  `ScanRuns.StoppedScanIsNeverRetried`.
- The search by scan history does not ask whose job it is (ingest/scanlaunch/registry.go:92-105): a caller is answered
  with another tenant's job if and only if the history has one, and reopens it if and only if it had failed,
  expired or been stopped: `ScanRegistry.OtherTenantsJob`.
- The sensor's self-deny list is not consulted for block targets: a denied address is reached if and only if a target
  is a block that holds it, lies in one allow block and shares no address with degenerate space:
  `ScopeGates.DeniedReachedIff`; input `ScopeGates.OwnBlockIsSwept`. 0.0.0.0/8 is refused inside blocks but only
  0.0.0.0 as a single address: `ScopeGates.DegenerateIff` (if and only if).
- The watchdog forgets a pass whose state file could not be replaced (hardening/openvas-watchdog/openvas-watchdog.py:77-82,
  216), never compares the stored pid, and its "desde or now" treats a clock of 0 as unset. The run of passes
  behind a kill is unbroken if and only if none of them found the scan stirring and then failed to save:
  `Watchdog.KillNeedsFrozenRun`. A run in which a scan seen with two children is killed, possibly in another
  process: `Watchdog.WorkingScanIsKilled`.

## Model

| member | source | states |
|---|---|---|
| Utf8.TranscodedFixes | control-plane/remediation/service.go:279-284 | A string comes back from the JSON encoder unchanged if and only if it is well-formed UTF-8 |
| Utf8.TranscodedIsValid | control-plane/remediation/registry.go:405-411 | What comes back is well-formed, so a second save changes nothing |
| Utf8.EncodingsAreValid | control-plane/remediation/service.go:279-284 | Rows of encoded characters are well-formed |
| Utf8.ValidIsEncodings | control-plane/remediation/service.go:279-284 | And every well-formed string is one |
| RemediationCanonical.FramesPrefixFree | control-plane/remediation/canonical.go:31-63 | Of two lists of length-prefixed lines followed by anything, whatever bytes the values hold, equal texts mean equal values and equal tails |
| RemediationCanonical.MessageInjective | control-plane/remediation/canonical.go:31-54 | The signed message determines all thirteen values, whatever characters they hold |
| RemediationCanonical.WriteField | control-plane/remediation/canonical.go:56-63 | Appends exactly the key, the value's byte length and the value |
| RemediationCanonical.ServerCanonical | control-plane/remediation/canonical.go:31-54 | The server's buffer loop writes the message of the job's thirteen fields |
| RemediationCanonical.AgentCanonical | agent/internal/remediate/canonical.go:28-46 | The agent's independent copy writes the message of the order's thirteen fields |
| RemediationCanonical.VerifiedIsSigned | control-plane/remediation/canonical.go:92-104 | A verifying order equals, in thirteen fields and payload, what the key holder signed |
| RemediationCanonical.SignatureBindsEveryField | agent/internal/remediate/canonical.go:77-89 | Under a verifying signature another order verifies if and only if it has the same fields and payload |
| RemediationCanonical.Rfc3339Second | control-plane/remediation/canonical.go:67-72 | Two instants signed alike are both unset or less than a second apart |
| RemediationCanonical.SignedText | control-plane/remediation/canonical.go:31-72 | The text a signature is over: the domain line and thirteen lines of key, byte length and value |
| RemediationCanonical.HtmlEscapeFixes | control-plane/remediation/service.go:279-284 | The response encoder leaves a payload alone if and only if it holds none of the rewritten bytes |
| RemediationCanonical.WireSafeText | control-plane/remediation/service.go:279-284 | The payloads it leaves alone, byte by byte |
| RemediationCanonical.EscapesAre | control-plane/remediation/service.go:279-284 | What it writes for the others |
| RemediationCanonical.RederivedBytesAgree | agent/internal/remediate/canonical.go:28-46 | The agent re-derives the server's canonical bytes from the response if and only if every signed string is well-formed UTF-8 |
| RemediationCanonical.DeliveredVerifies | control-plane/remediation/service.go:77-90 | A signed job, read back from the file or not, verifies after delivery if and only if its payload is not rewritten, its approver was well-formed UTF-8 and the response is within the agent's limit |
| RemediationCanonical.FieldsSurvive | control-plane/remediation/registry.go:405-411 | A trip through JSON keeps the thirteen signed values if and only if every signed string is well-formed UTF-8 |
| RemediationCanonical.ResponseOverhead | control-plane/remediation/types.go:75-105 | Whatever the job and however its members are spelled, the response is at least 235 bytes longer than the payload |
| RemediationCanonical.LongPayloadNeverArrives | agent/internal/remediate/client.go:17-56 | A payload within 235 bytes of the limit fits a request and never arrives |
| RemediationServer.Registry.constructor | control-plane/remediation/registry.go:43-79 | Loads the file except post-approval jobs without a signature; defaults for unset settings |
| RemediationServer.Registry.SaveLocked | control-plane/remediation/registry.go:392-418 | The file is replaced whole, every string as JSON writes it, or left as it was, and the caller learns which |
| RemediationServer.Registry.Reap | control-plane/remediation/registry.go:97-124 | Removes exactly the terminal jobs past retention and saves only if it removed any |
| RemediationServer.Registry.Enqueue | control-plane/remediation/registry.go:129-189 | Refusals, the new pending job, and its removal when the save fails |
| RemediationServer.Registry.Approve | control-plane/remediation/registry.go:195-224 | Gates on state and signer; approves and signs; puts the old job back when the save fails |
| RemediationServer.Registry.Reject | control-plane/remediation/registry.go:227-241 | Rejects a pending job or reports why not, with the same revert |
| RemediationServer.Registry.SweepAndSelect | control-plane/remediation/registry.go:252-283 | One pass expires exactly the caller's lapsed jobs and collects exactly the deliverable ones |
| RemediationServer.Registry.Oldest | control-plane/remediation/registry.go:284-288 | The candidate chosen is no newer than any other |
| RemediationServer.Registry.Poll | control-plane/remediation/registry.go:248-302 | Hands out an oldest eligible job only if DELIVERED could be saved, otherwise reverts |
| RemediationServer.Registry.Ack | control-plane/remediation/registry.go:306-321 | Acks a delivered job of the caller's agent and tenant, never anyone else's |
| RemediationServer.Registry.Report | control-plane/remediation/registry.go:327-360 | Records the result and the state it implies for the caller's own job |
| RemediationServer.Registry.MarkVerified | control-plane/remediation/registry.go:365-379 | Only an APPLIED job becomes VERIFIED |
| RemediationLaws.EnqueueAnswers | control-plane/remediation/registry.go:129-189 | A job is created exactly for a complete request of a known type with a JSON payload, if saved; its every field; only finished jobs over seven days old make room |
| RemediationLaws.ApproveAnswers | control-plane/remediation/registry.go:195-224 | Only a pending job, by a named operator, with a key, if saved; issued, approved and signed then; otherwise still pending and unsigned |
| RemediationLaws.RejectAnswers | control-plane/remediation/registry.go:227-241 | Ends exactly a job that has not ended |
| RemediationLaws.PollPicks | control-plane/remediation/registry.go:248-288 | An oldest job of the agent that is approved, or delivered longer ago than the redelivery window, unexpired and in its window; none exactly if there is none |
| RemediationLaws.PollLeaves | control-plane/remediation/registry.go:248-302 | Handed out, delivered now, exactly if it could be saved; the agent's own late jobs expire; no other job changes |
| RemediationLaws.AckAnswers | control-plane/remediation/registry.go:306-321 | Believed exactly from the job's own agent and tenant; moves exactly a DELIVERED job |
| RemediationLaws.ReportAnswers | control-plane/remediation/registry.go:327-360 | In DELIVERED or ACKED the stamped result is stored and the job is APPLIED exactly if the status is "applied", FAILED otherwise; an earlier result or end stands; before delivery and from others it is refused |
| RemediationLaws.VerifyAnswers | control-plane/remediation/registry.go:365-379 | Exactly an APPLIED job becomes VERIFIED |
| RemediationLaws.ReapAnswers | control-plane/remediation/registry.go:97-124 | Exactly the ended jobs older than the retention, seven days unless set, go |
| RemediationLaws.ReloadAnswers | control-plane/remediation/registry.go:62-79 | A restart keeps exactly the filed jobs that are signed or need no signature |
| RemediationAgent.Journal.Record | agent/internal/remediate/journal.go:51-61 | The entry is in memory always and on disk when the write succeeds |
| RemediationAgent.Executor.Apply | agent/internal/remediate/executor.go:81-132 | The gates in order, one handler run, and the journal entry it leaves |
| RemediationAgent.Runner.RunOnce | agent/internal/remediate/runner.go:54-87 | Poll, apply, then the ack and report the outcome calls for |
| RemediationLaws.RunsExactlyWhen | agent/internal/remediate/runner.go:54-87 | A handler runs exactly on an authentic, current order in its window, of a handled type, that the journal does not show applied |
| RemediationLaws.TurnLeaves | agent/internal/remediate/executor.go:81-132 | The journal entry, ack and report each kind of turn leaves, report field by field |
| RemediationAgent.NoJobNoApply | agent/internal/remediate/executor.go:85-87 | An apply without a job, or with one without an id, is an error and nothing else |
| RemediationAgent.RestartForgetsIff | agent/internal/remediate/journal.go:32-61 | After a run and a restart the order runs again in its window exactly if the journal was unreadable, or does not hold its success |
| RemediationAgent.RunsAreRuns | agent/internal/remediate/executor.go:81-132 | The runs counted are the handler runs of an apply |
| RemediationLaws.AnswersAreRecorded | agent/internal/remediate/runner.go:70-87 | A run's ack and report take a DELIVERED job to APPLIED exactly if the handler did not err, to FAILED otherwise |
| RemediationLaws.JobGoesThrough | control-plane/remediation/service.go:72-240 | A legible request, enqueued, approved, polled, delivered, run, acked and reported in time, ends APPLIED, then VERIFIED, exactly if the handler did not err, else FAILED |
| RemediationTurns.HandedIsReleased | control-plane/remediation/registry.go:248-302 | An order the server hands out carries a signature an approval released, so the modelled network may bring it |
| RemediationTurns.TurnIsARun | agent/internal/remediate/runner.go:54-87 | An agent's turn, its poll, run, ack and report, is part of the protocol's runs and leaves what the server's operations leave on its messages |
| RemediationTurns.JobIsARun | control-plane/remediation/service.go:72-240 | From any reachable world steps of the protocol take a favourable request to VERIFIED, or to FAILED if its handler errs |
| RemediationAgent.EvidenceOfApplied | agent/internal/remediate/executor.go:81-132 | Every applied entry or report rests on an earlier entry or on a handler run that just succeeded on a verified order inside its window |
| RemediationAgent.AtMostOncePerLostEntry | agent/internal/remediate/executor.go:81-132 | Over any calls, write failures and restarts, successful runs of a job are at most one more than the restarts that found no applied entry |
| RemediationAgent.BoundIsReached | agent/internal/remediate/journal.go:32-61 | For every n there is a history with n lost entries and n + 1 successful runs |
| RemediationAgent.AppliedIsFinal | agent/internal/remediate/journal.go:42-61 | While the process lives an applied job is never run again |
| RemediationProtocol.StepKeeps | control-plane/remediation/registry.go:195-379 | Every event of server, agents and network keeps the protocol invariant |
| RemediationProtocol.RunsKeepInvariant | agent/internal/remediate/client.go:34-68 | The invariant holds in every world of every run |
| RemediationProtocol.HandlersRunOnlyApprovedJobs | agent/internal/remediate/runner.go:54-87 | Every handler run was on an order equal in every signed field and payload to an approved job, verified, not polled past its expiry and run inside its window |
| RemediationProtocol.RunsAreInTime | agent/internal/remediate/canonical.go:94-107 | Every run's order was polled neither before its issue nor after its expiry, up to the skew, and run inside its window; and within a second of that by the approval's own times |
| RemediationProtocol.AppliedJobsWereRun | control-plane/remediation/registry.go:327-379 | Every APPLIED or VERIFIED job, in memory or on disk, was run without error by its agent, on an order equal to the job that was approved under its id |
| RemediationProtocol.SignatureCoversCurrentFields | control-plane/remediation/registry.go:83-89 | From APPROVED to VERIFIED a job carries its approval's signature and payload, in memory and on disk; on disk the signature covers the current fields if and only if the approver was well-formed UTF-8, in memory also while the job was not reloaded |
| RemediationProtocol.LatinApproverUnsigns | control-plane/remediation/service.go:200-228 | Approved by "Jos\xe9", a job's signature covers it in memory and no longer once it is filed |
| RemediationProtocol.ReloadDropsNothing | control-plane/remediation/registry.go:62-79 | In every run the loader's coherence check drops nothing the server wrote |
| RemediationProtocol.HandedOutIsDurable | control-plane/remediation/registry.go:284-302 | A job handed out is DELIVERED in the file at that moment, as JSON writes it, for the polling agent and tenant |
| RemediationProtocol.DeliveryStaysDurable | control-plane/remediation/registry.go:248-418 | In every later file it is at DELIVERED or beyond until reaped, through failed saves and crashes |
| RemediationProtocol.RankNeverFalls | control-plane/remediation/registry.go:195-379 | Between crashes no job goes back in its life and a terminal job keeps its state |
| RemediationProtocol.PolledJobVerifies | control-plane/remediation/canonical.go:110-121 | With clocks within the skew, a polled job carries its approval's signature and verifies on the agent if and only if its payload is not rewritten, its approver was well-formed UTF-8 and the response is within the agent's limit |
| RemediationProtocol.MarkupPayloadNeverVerifies | control-plane/remediation/service.go:279-284 | A concrete payload holding markup never verifies |
| RemediationProtocol.LatinApproverNeverVerifies | control-plane/remediation/service.go:279-284 | A job approved by "Jos\xe9" never verifies, whatever its payload |
| Versions.ComputeVer | agent/internal/update/update.go:167-180 | The slot-filling loop computes the triple: first three components, unreadable ones 0 |
| Versions.NewerIsStrictWeakOrder | agent/internal/update/update.go:145-153 | Irreflexive, transitive, and ties are exactly equal triples, for all version texts |
| Versions.NormalizeTwice | agent/internal/update/update.go:159-165 | A second normalization changes nothing if and only if the first left no blank end and no leading v |
| Versions.StableIsFaithful | agent/internal/update/update.go:159-180 | Such versions read the same numbers stored as running |
| Versions.NormalNeverLower | agent/internal/update/update.go:159-180 | A stored version never reads lower than the version itself, and reads higher if and only if normalizing once left a v in front of a positive number |
| Versions.ReleaseText | agent/internal/update/update.go:159-180 | a.b.c, with a v in front or not and a hyphenated suffix or none, is stored as a.b.c and read as its three numbers |
| Versions.NewerByNumbers | agent/internal/update/update.go:145-153 | The first differing number decides |
| Versions.UnreadableComponent | agent/internal/update/update.go:167-180 | A component that is no number or too large reads as 0 |
| SelfUpdate.Updater.CheckAllowed | agent/internal/update/state.go:41-53 | Refuses exactly targets below the floor or quarantined |
| SelfUpdate.Updater.RecordCommitted | agent/internal/update/state.go:57-72 | Raises the floor, drops the version and everything not above the floor from the quarantine |
| SelfUpdate.Updater.RecordFailed | agent/internal/update/state.go:75-84 | Adds the version to the quarantine once |
| SelfUpdate.Updater.Prune | agent/internal/update/state.go:57-72 | Keeps exactly the entries newer than the floor, in order |
| SelfUpdate.Updater.Remove | agent/internal/update/state.go:86-94 | Keeps exactly the other entries, in order |
| SelfUpdate.Updater.Apply | agent/internal/update/apply.go:121-164 | Smoke test, idempotent re-apply, backup, swap and marker, stopping at the first failure |
| SelfUpdate.Updater.Rollback | agent/internal/update/apply.go:253-263 | Restores the backup, quarantines the target, clears the stage |
| SelfUpdate.Updater.BeginBoot | agent/internal/update/apply.go:197-232 | Counts the boot of a staged version or rolls it back once the budget is spent |
| SelfUpdate.Updater.CommitIfHealthy | agent/internal/update/apply.go:238-249 | Commits exactly when the running version is the staged target |
| SelfUpdate.AllowedIff | agent/internal/update/state.go:41-53 | Refused exactly below a set floor or by listed text |
| SelfUpdate.ApplyLeaves | agent/internal/update/apply.go:121-164 | When the restart is asked for, and which of backup, binary and marker changed, for every combination of failures |
| SelfUpdate.BootLeaves | agent/internal/update/apply.go:197-263 | Which boots clear, count or roll back, and every file they leave |
| SelfUpdate.CommitLeaves | agent/internal/update/apply.go:238-249 | A commit happens exactly if the target runs; the floor and the list it leaves |
| SelfUpdateRuns.FloorNeverExceedsRunning | agent/internal/update/state.go:41-84 | In every run the floor is at no point above the running version, the binary on disk, the backup, or the version to roll back to if and only if the run commits no version that reads higher once normalized |
| SelfUpdateRuns.FloorNeverDecreases | agent/internal/update/state.go:57-72 | In every run, for all version texts, the floor never falls |
| SelfUpdateRuns.RollbackIsRemembered | agent/internal/update/apply.go:197-263 | A boot past the budget, of the target or of any third version, restores the backup and records the target as failed |
| SelfUpdateRuns.RolledBackVersionNeverReturns | agent/internal/agentd/agentd.go:203-231 | After a recorded rollback no later update is for that text, not even once a commit has pruned the quarantine, as long as no commit before it was of a version that reads higher once normalized |
| SelfUpdateRuns.LosesQuarantinedIff | agent/internal/update/state.go:57-72 | After a commit the process is offered a quarantined version again if and only if that version is newer than the running one and reads, stored, the same as the committed one; then the committed version reads higher once normalized |
| SelfUpdateRuns.RolledBackReturns | agent/internal/update/state.go:57-72 | A run in which "1.2" is rolled back, "vv1.2" is committed and "1.2" is applied again |
| SelfUpdateRuns.OtherSpellingIff | agent/internal/update/state.go:41-53 | After a recorded rollback a target with that version's numbers is applied if and only if its text is not listed, the floor does not exceed it and it is newer than the running version; without an overstated commit the floor plays no part and the rolled-back text is still listed |
| SelfUpdateRuns.SameNumbersReturn | agent/internal/update/state.go:41-53 | A run in which "1.2" is rolled back and "1.2.0" is then applied |
| SelfUpdateRuns.CommitFloorExact | agent/internal/update/apply.go:238-249 | A commit keeps the floor at or below the running version if and only if the normalized text does not read as newer |
| SelfUpdateRuns.DoubledPrefixIsUnfaithful | agent/internal/update/update.go:159-165 | "vv1.2" is a version for which it does |
| SelfUpdateRuns.BackupSurvivesApply | agent/internal/update/apply.go:121-164 | An attempted update keeps the backup equal to the version the stage names if and only if it is not one for another version that stops after the backup copy |
| SelfUpdateRuns.ReapplyKeepsBackup | agent/internal/update/apply.go:133-144 | Re-applying the staged version changes no file |
| SelfUpdateRuns.BackupSurvivesBoot | agent/internal/update/apply.go:197-263 | Boots and commits keep it if and only if no rollback's restart request fails |
| SelfUpdateRuns.BackupHoldsPrevious | agent/internal/update/apply.go:121-263 | In every run without those two failures, while a stage exists the backup holds the version it names |
| SelfUpdateRuns.BootsAreBudgeted | agent/internal/update/apply.go:20-23 | In every run an uncommitted staged version passes BeginBoot at most three times, plus the boots whose marker write or rollback failed |
| SelfUpdateRuns.SpentBudgetRestores | agent/internal/update/apply.go:197-263 | Once the budget is spent the next boot puts the previous version back |
| Tokens.MemStore.Update | control-plane/tokens/store.go:58-66 | Replaces a known record; an unknown one is an error and changes nothing |
| Tokens.Manager.Mint | control-plane/tokens/tokens.go:161-203 | Validation, caps and the new record |
| Tokens.Manager.Validate | control-plane/tokens/tokens.go:316-342 | The checks in order, each with its own error |
| Tokens.Manager.Consume | control-plane/tokens/tokens.go:212-244 | One use, one audit entry and one bound agent, or an error and no change |
| Tokens.Manager.AppendEnrollment | control-plane/tokens/tokens.go:252-282 | An audit entry on the agent's token unless it is revoked or unknown |
| Tokens.Manager.RevokeRecord | control-plane/tokens/tokens.go:297-314 | Marks the record once and returns it with its audit trail |
| Tokens.MalformedIff | control-plane/tokens/tokens.go:344-351 | MALFORMED exactly for a text that, less its prefix, has no dot or an empty half |
| Tokens.CheckAnswers | control-plane/tokens/tokens.go:316-342 | Of a readable text: not found for unknown ids and wrong secrets, then revoked, expired, used up, wrong host, else the record |
| Tokens.MintAnswers | control-plane/tokens/tokens.go:161-203 | Minted exactly for a known kind, a tenant, a lifetime and 1 to 100000 uses; one use for a single host; the record filed |
| Tokens.MintedTokenWorks | control-plane/tokens/tokens.go:190-203 | The text just minted is accepted until it expires from exactly the hosts it was minted for; with another secret it is unknown |
| Tokens.AppendAnswers | control-plane/tokens/tokens.go:252-282 | A renewal is audited exactly for an agent of a known, unrevoked token, under its name and dated |
| Tokens.ConsumeLeaves | control-plane/tokens/tokens.go:212-244 | One use more, one dated audit entry, one agent bound, nothing else |
| Tokens.RevokeAnswers | control-plane/tokens/tokens.go:297-314 | Revoked once, by name and date, uses and audit kept |
| Tokens.MintConserves | control-plane/tokens/tokens.go:161-203 | Minting under a fresh id keeps uses equal to bound agents |
| Tokens.ConsumeShape | control-plane/tokens/tokens.go:212-244 | A successful consume had a live, unexhausted record of the parsed id, and changes just that record and one binding |
| Tokens.ConsumeSucceedsIff | control-plane/tokens/tokens.go:212-244 | A consume succeeds if and only if the token is usable and the agent, if named, is not bound yet |
| Tokens.ConsumeConserves | control-plane/tokens/tokens.go:212-244 | Uses stay equal to bound agents if and only if the consume names an agent or the token is not usable: malformed, unknown, revoked, expired, used up or for another host |
| Tokens.AppendAndRevokeConserve | control-plane/tokens/tokens.go:252-314 | Renewal entries and revocation change neither uses nor bindings |
| DistinguishedName.SplitUnescaped | control-plane/sensorjobs/authz.go:79-97 | The index loop splits at exactly the unescaped separators |
| DistinguishedName.JoinUndoesSplit | control-plane/sensorjobs/authz.go:79-97 | Joining the parts with the separator restores any input |
| DistinguishedName.UnescapeDN | control-plane/sensorjobs/authz.go:99-113 | The loop removes each escaping backslash and nothing else |
| DistinguishedName.ParseDN | control-plane/sensorjobs/authz.go:55-77 | The parser's loop over segments |
| DistinguishedName.UnescapeUndoesRendering | control-plane/sensorjobs/authz.go:99-113 | Unescaping any single-character-escape rendering gives the value back |
| DistinguishedName.HexPairIsNotUndone | control-plane/sensorjobs/authz.go:99-113 | Of a rendering that may also use hex pairs, unescaping gives the value back if and only if it used none |
| DistinguishedName.ParseUndoesRendering | control-plane/sensorjobs/authz.go:55-105 | Any attribute list whose values have no outer blanks, rendered with any admissible escapes, comes back as the same multimap |
| DistinguishedName.AnyCase | control-plane/sensorjobs/authz.go:70-77 | A key is read in any case and its value unescaped |
| DistinguishedName.UpperIs | control-plane/sensorjobs/authz.go:70-77 | Keys are capitalized letter by letter |
| DistinguishedName.SlashForm | control-plane/sensorjobs/authz.go:60-70 | The one-line form with slashes reads the same attributes |
| DistinguishedName.RawParseDN | control-plane/enroll/enroll.go:321-341 | The enrollment parser's loop, which ignores escapes |
| DistinguishedName.EscapedValueIsLost | control-plane/enroll/enroll.go:321-341 | It reads a value back if and only if the value needed no escape and has no outer blank |
| DistinguishedName.RawParseExact | control-plane/enroll/enroll.go:321-341 | It reads a whole name back if and only if that holds of every value |
| DistinguishedName.RawAnyCase | control-plane/enroll/enroll.go:333-338 | A key is read in any case and its value as it stands |
| Enrollment.RenewalKeepsIdentity | control-plane/enroll/enroll.go:215-263 | Renewal keeps CN, O and OU if and only if none needs an escape, for a special character or a byte outside printable ASCII, or has outer blanks |
| Enrollment.CommaTenantIsLost | control-plane/enroll/enroll.go:321-341 | A tenant with a comma does not survive renewal |
| Enrollment.AccentedTenantIsLost | control-plane/enroll/enroll.go:321-341 | Nor does a tenant with bytes outside ASCII |
| Enrollment.RenewedCnIsTheCertified | control-plane/enroll/enroll.go:388-398 | A valid agent id read back at renewal is the one certified |
| Enrollment.AgentIds | control-plane/enroll/enroll.go:388-398 | 1 to 128 bytes without controls or the eight name characters |
| Enrollment.EnrollRefusals | control-plane/enroll/enroll.go:139-166 | What an enrollment is refused for, in order, and with which error |
| Enrollment.PlainTexts | control-plane/enroll/enroll.go:321-341 | The values that survive renewal, character by character |
| Enrollment.CA.IsRevoked | control-plane/ca/ca.go:222-236 | The search finds exactly the listed serials |
| Enrollment.CA.RevokeCertSerial | control-plane/ca/ca.go:202-216 | Appends the serial to the list |
| Enrollment.Service.Enroll | control-plane/enroll/enroll.go:139-198 | Checks, signature, then the token consumed last; a certificate is returned only if that succeeded |
| Enrollment.Service.Renew | control-plane/enroll/enroll.go:215-274 | Checks, signature, then the audit entry last; a certificate is returned only if that succeeded |
| Enrollment.Service.RevokeToken | control-plane/api/api.go:162-193 | The record is marked, then every audited serial is put on the list |
| Enrollment.MintedTokenEnrolls | control-plane/enroll/enroll.go:139-198 | A minted token enrolls, until it expires, exactly its hosts, under a valid proven name not yet bound, and certifies its tenant and policy |
| Enrollment.RenewAnswers | control-plane/enroll/enroll.go:215-263 | With a plain subject: exactly for a verified, unrevoked, named certificate and a sound request for the same name; the same subject again |
| Enrollment.IdentityLife | control-plane/api/api.go:162-193 | Minted, enrolled, renewed, revoked: the same subject throughout, both serials listed, and afterwards neither enrollment nor renewal |
| EnrollmentRuns.StepKeeps | control-plane/enroll/enroll.go:139-274 | Every locked section, signature and list addition, in any interleaving, keeps the invariant |
| EnrollmentRuns.RevokedTokenKillsEveryCertificate | control-plane/api/api.go:162-193 | In every interleaving, once revokeToken has returned every certificate ever handed out under the token, through any renewals, is on the CA's list |
| EnrollmentRuns.CertificatesStayWithTheirToken | control-plane/enroll/enroll.go:168-263 | Every certificate handed out names an agent bound to its token and, when they render plainly, the token's tenant and policy |
| EnrollmentRuns.UsesAreConserved | control-plane/tokens/tokens.go:212-244 | In every interleaving each token's use count is the number of agents bound to it and within its cap |
| EnrollmentRuns.AgentsKeepTheirToken | control-plane/tokens/store.go:80-101 | Between any two points of a run bindings stay, audited serials stay, revoked records are frozen and scopes do not change |
| EnrollmentRuns.EnrollIsARun | control-plane/enroll/enroll.go:139-198 | An enrollment nobody comes between is three steps of the machine, with the same result |
| EnrollmentRuns.RenewIsARun | control-plane/enroll/enroll.go:215-274 | So is a renewal, and the new certificate stays with the old one's token |
| EnrollmentRuns.RevokeIsARun | control-plane/api/api.go:162-193 | And a revocation is a step for the record, one for each serial and its end |
| ScanRegistry.Registry.List | ingest/scanlaunch/registry.go:61-70 | Every job once, oldest submission first |
| ScanRegistry.Registry.FindByScanHistoryLocked | ingest/scanlaunch/registry.go:74-81 | A job of that scan history, or none exists |
| ScanRegistry.Registry.FindOrCreate | ingest/scanlaunch/registry.go:88-143 | Replay, reopening of failed jobs, cooldown collapse, creation and its undoing when the save fails |
| ScanRegistry.Registry.Update | ingest/scanlaunch/registry.go:147-161 | The mutation is kept in memory whether or not it could be saved |
| ScanRegistry.Registry.CountActive | ingest/scanlaunch/registry.go:164-174 | The number of RUNNING jobs |
| ScanRegistry.Registry.ReapTerminal | ingest/scanlaunch/registry.go:180-204 | Removes exactly the terminal jobs completed before the cutoff and says how many |
| ScanRegistry.Service.Delete | ingest/scanlaunch/service.go:168-196 | A stop request on the caller's own unfinished job; the reply for every other case |
| ScanRegistry.CreateKeepsUnique | ingest/scanlaunch/registry.go:88-143 | No call makes two jobs share a scan history |
| ScanRegistry.ReplayFindsTheJob | ingest/scanlaunch/registry.go:92-105 | Asking again for a known scan history answers with its job and creates none |
| ScanRegistry.OtherTenantsJob | ingest/scanlaunch/registry.go:92-105 | A caller is answered with another tenant's job if and only if the history has one, and changes it, by reopening, if and only if it had failed, expired or been stopped |
| ScanRegistry.ReopenKeepsTheStop | ingest/scanlaunch/registry.go:97-103 | A reopened job is PENDING with the stop flag it had |
| ScanRegistry.CreateAnswers | ingest/scanlaunch/registry.go:88-143 | When a request creates, finds or is refused, the new job's every field, and the one job it may change |
| ScanRegistry.DeletableIff | ingest/scanlaunch/service.go:168-196 | A stop is taken from the owner while the job waits or runs |
| ScanRegistry.ReapedAre | ingest/scanlaunch/registry.go:180-204 | Exactly the jobs that ended before the cutoff go |
| ScanReconciler.Reconciler.Launch | ingest/scanlaunch/reconciler.go:86-107 | RUNNING with the scanner's ids, or FAILED, and whether a slot was used |
| ScanReconciler.Reconciler.Poll | ingest/scanlaunch/reconciler.go:115-150 | The state each scanner status leads to, status before the duration cap, and the calls made |
| ScanReconciler.Reconciler.Complete | ingest/scanlaunch/reconciler.go:153-172 | COMPLETED only after the report was fetched and its findings cached |
| ScanReconciler.Reconciler.Stop | ingest/scanlaunch/reconciler.go:175-185 | The scanner is asked to stop a RUNNING job; the job is STOPPED either way |
| ScanReconciler.Reconciler.Tick | ingest/scanlaunch/reconciler.go:45-82 | Stops, then polls, then launches up to the slots counted between, then reaps, over one listing |
| ScanReconciler.ReopenedIsDueIff | ingest/scanlaunch/reconciler.go:51-76 | At the next tick a reopened job is due for launch if and only if its stop flag is clear, and due to be stopped otherwise |
| ScanReconciler.LaunchedIff | ingest/scanlaunch/reconciler.go:66-76 | A tick launches a pending job if and only if no stop was asked for and a slot is left when it is reached |
| ScanReconciler.TickStops | ingest/scanlaunch/reconciler.go:175-185 | A tick leaves an unfinished job whose stop was asked for STOPPED, the flag still set, and calls the scanner exactly if it was RUNNING |
| ScanReconciler.TickPolls | ingest/scanlaunch/reconciler.go:110-172 | What each word of the scanner leads to: a scan still going is EXPIRED with a stop call exactly if started longer ago than the cap, else RUNNING with its progress |
| ScanReconciler.TickLaunches | ingest/scanlaunch/reconciler.go:86-107 | With a slot left a pending job is launched, RUNNING with its ids or FAILED with the start of the error; without, it waits |
| ScanReconciler.TickLeavesEnded | ingest/scanlaunch/reconciler.go:45-82 | A job that has ended is left alone, or removed past the retention |
| ScanReconciler.SlotsLeft | ingest/scanlaunch/reconciler.go:57-76 | At least the limit less the jobs running and those listed before are left |
| ScanReconciler.SlotTaken | ingest/scanlaunch/reconciler.go:66-76 | Only a pending job whose launch the bridge accepts takes a slot |
| ScanReconciler.SlotsAtFirst | ingest/scanlaunch/reconciler.go:57-65 | The launch pass starts from the limit less the jobs that are running and not to be stopped |
| ScanReconciler.FileFollows | ingest/scanlaunch/registry.go:147-204 | A write changes one record and the file exactly if saved; reaping writes only when it removed something |
| ScanRuns.StepKeeps | ingest/scanlaunch/reconciler.go:45-185 | Every step of the reconciler, every handler step and a restart keep the invariant |
| ScanRuns.ActsOnCurrentJobs | ingest/scanlaunch/reconciler.go:86-185 | In every run, when the bridge is asked and when its answer is written, the stored job is the snapshot's but for a stop asked for since |
| ScanRuns.RunningIsBounded | ingest/scanlaunch/reconciler.go:57-76 | RUNNING jobs, in memory and file, never exceed the limit or the number loaded running |
| ScanRuns.OneRequestPerHistory | ingest/scanlaunch/registry.go:88-143 | One scan history, one request id, in memory and file, in every run |
| ScanRuns.LaunchesAreBounded | ingest/scanlaunch/reconciler.go:86-107 | In one process a job is handed to the scanner at most once plus once per reopening |
| ScanRuns.CompletedIsFinal | ingest/scanlaunch/registry.go:180-204 | COMPLETED is left only by reaping, and only when old enough |
| ScanRuns.StoppedJobsNeverLaunch | ingest/scanlaunch/registry.go:97-103 | A job whose stop a tick has seen is never again polled or launched by that process, reopened or not |
| ScanRuns.RetryEndsStopped | ingest/scanlaunch/registry.go:97-103 | From any point of any run at which the reconciler is idle, asking again for a stopped scan makes its job PENDING with the stop still set, and the tick that follows leaves it STOPPED |
| ScanRuns.StoppedScanIsNeverRetried | ingest/scanlaunch/registry.go:97-103 | A whole run from an empty registry in which the retry ends STOPPED |
| ScanRuns.TickIsARun | ingest/scanlaunch/reconciler.go:45-82 | The reconciler's tick, undisturbed, continues any run that left it idle |
| Cidr.ContainsIsIn | control-plane/sensorjobs/scope.go:55-62 | Masking and comparing is membership in the block |
| Cidr.WithinIff | sensor/internal/scope/scope.go:86-92 | Mask length and network address decide exactly whether every address of the target is in the block |
| Cidr.OverlapIff | sensor/internal/scope/scope.go:142-152 | The two-way test decides exactly whether two blocks share an address |
| Cidr.SharedPrefix | control-plane/sensorjobs/scope.go:55-62 | Addresses share a block exactly if their leading bits agree |
| ScopeGates.ParseScope | control-plane/sensorjobs/scope.go:21-46 | The loop over fields: trimmed, empty ones skipped, bare addresses as single-address blocks, the first bad one an error |
| ScopeGates.SensorScope.New | sensor/internal/scope/scope.go:32-45 | A bad allow entry is an error, a bad self-deny entry is skipped |
| ScopeGates.SensorScope.DegenerateOverlap | sensor/internal/scope/scope.go:145-152 | The search over the eight degenerate ranges |
| ScopeGates.SensorScope.CheckHost | sensor/internal/scope/scope.go:53-94 | The verdict and canonical form of a target |
| ScopeGates.SensorScope.Filter | sensor/internal/scope/scope.go:97-106 | Canonical forms of the accepted targets and the refused ones, in order |
| ScopeGates.CloudScope.Contains | control-plane/sensorjobs/scope.go:53-75 | The cloud's verdict |
| ScopeGates.CloudScope.Gate | control-plane/sensorjobs/scope.go:79-88 | Trimmed accepted targets and the refused ones, in order |
| ScopeGates.ReportScope.ContainsIP | ingest/sensorreport/scope.go:48-59 | The importer's verdict |
| ScopeSpecs.FieldsSplit | control-plane/sensorjobs/scope.go:23-25 | Comma, blank, newline and tab separate fields wherever they stand |
| ScopeSpecs.TokenIff | control-plane/sensorjobs/scope.go:26-29 | The tokens are the trimmed, non-empty fields |
| ScopeSpecs.SpecAuthorizes | control-plane/sensorjobs/scope.go:21-46 | A spec authorizes exactly the addresses that are a token or lie in one, and is refused exactly for a token that is neither |
| ScopeSpecs.BareAddress | ingest/sensorreport/scope.go:19-46 | A spec of one bare address authorizes it and no other, at all three gates |
| ScopeSpecs.DeniedMean | sensor/internal/scope/scope.go:38-43 | Denied are exactly the address literals of the self-deny spec |
| ScopeSpecs.CloudSplits | control-plane/sensorjobs/scope.go:79-88 | Each target is kept, trimmed, or returned, in order |
| ScopeSpecs.SensorSplits | sensor/internal/scope/scope.go:97-106 | The same for the sensor, in its spelling |
| ScopeSpecs.DegenerateRanges | sensor/internal/scope/scope.go:112-152 | The refused ranges by their numbers |
| ScopeGates.CheckHostMeaning | sensor/internal/scope/scope.go:53-94 | Accepted if and only if every address lies in one allow block and, for single addresses, is neither degenerate nor denied, for blocks, touches no degenerate range |
| ScopeGates.CloudMeaning | control-plane/sensorjobs/scope.go:53-75 | Accepted if and only if a literal all of whose addresses lie in one scope block |
| ScopeGates.GatesAgree | ingest/sensorreport/scope.go:48-59 | What the sensor keeps the cloud accepts, also as the sensor spells it; every address of what the cloud accepts passes the importer |
| ScopeGates.DegenerateIff | sensor/internal/scope/scope.go:112-140 | The byte tests on single addresses and the block ranges differ exactly on the rest of 0.0.0.0/8 |
| ScopeGates.KeptIff | sensor/internal/scope/scope.go:97-106 | The kept targets are exactly the accepted ones and none is lost between kept and dropped |
| ScopeGates.SensorStaysInScope | sensor/internal/scope/scope.go:53-106 | No address reached by the kept targets is off the allow set, degenerate (but for those singles) or denied (but inside a block) |
| ScopeGates.DeniedReachedIff | sensor/internal/scope/scope.go:56-94 | A denied address is reached if and only if some target reads as a block that holds it, lies in one allow block and shares no address with degenerate space |
| ScopeGates.OwnBlockIsSwept | sensor/internal/scope/scope.go:75-92 | A concrete block target that reaches the sensor's own address |
| SensorDispatch.Registry.Enqueue | control-plane/sensorjobs/registry.go:78-141 | Gate, sort, storm collapse, creation, and its undoing when the save fails |
| SensorDispatch.Registry.SweepAndCollect | control-plane/sensorjobs/registry.go:152-174 | One pass expires exactly the tenant's lapsed jobs and collects exactly the deliverable ones |
| SensorDispatch.Registry.Poll | control-plane/sensorjobs/registry.go:147-188 | An oldest eligible job of the tenant, marked DELIVERED, or none because none is eligible |
| SensorDispatch.Registry.Ack | control-plane/sensorjobs/registry.go:193-206 | Acks an unfinished job of the tenant, never another tenant's |
| SensorDispatch.TenantsAreApart | control-plane/sensorjobs/registry.go:147-206 | Whoever polls or acks, another tenant's job is neither handed out nor changed |
| SensorDispatch.UnackedIsRedelivered | control-plane/sensorjobs/registry.go:164-174 | An unacked, unexpired job past its window with nothing older waiting is the next handed out |
| SensorDispatch.SortOrders | control-plane/sensorjobs/registry.go:84-93 | The kept targets, ordered, none lost |
| SensorDispatch.OneOrder | control-plane/sensorjobs/registry.go:84-93 | The same targets sort to the same list |
| SensorDispatch.EnqueueAnswers | control-plane/sensorjobs/registry.go:95-141 | Created exactly if no live recent job of the tenant has the same targets in any order and the same config, and it is saved; every field |
| SensorDispatch.PollAnswers | control-plane/sensorjobs/registry.go:147-188 | An oldest waiting job, none exactly if there is none; the tenant's own late jobs expire |
| SensorDispatch.AckAnswers | control-plane/sensorjobs/registry.go:193-206 | Leaves exactly the tenant's own live job ACKED |
| SensorDispatch.Supervisor.PollOnce | sensor/internal/supervisor/supervisor.go:85-108 | Poll, scan, push, and the ack only after both succeeded |
| SensorDispatch.Supervisor.ProcessJob | sensor/internal/supervisor/supervisor.go:110-138 | A failed scan is not pushed; success means scanned and pushed |
| SensorDispatch.AckComesAfterPush | sensor/internal/supervisor/supervisor.go:85-138 | A turn acks if and only if its scan ran and its push was accepted, and right after that push |
| SensorRuns.StepKeeps | control-plane/sensorjobs/registry.go:78-206 | Every event of cloud, sensors and network keeps the invariant |
| SensorRuns.AckedMeansReported | sensor/internal/supervisor/supervisor.go:85-138 | In every run an ACKED job, in memory or file, has had a report with its correlation id accepted from its tenant |
| SensorRuns.DispatchedIsInScope | control-plane/sensorjobs/registry.go:78-93 | In every run every target handed to a sensor lies within one block of its tenant's scope |
| SensorRuns.TurnIsARun | sensor/internal/supervisor/supervisor.go:85-138 | A turn of the loop, from the poll on, is part of the machine's runs, leaves exactly the reports and acks its calls sent, and acks only what the cloud took |
| Lex.Sort | hardening/openvas-watchdog/openvas-watchdog.py:149 | The members of a set, each once, in byte order |
| Lex.OneListing | agent/internal/transport/queue.go:134-147 | A set has one sorted listing |
| Watchdog.Watchdog.RunPass | hardening/openvas-watchdog/openvas-watchdog.py:138-216 | The pass over the sorted scans, the new state file or the old one if it could not be replaced, and the processes signalled, each of the scan and pid it was examined as |
| Watchdog.Watchdog.Examine | hardening/openvas-watchdog/openvas-watchdog.py:150-214 | One scan: dropped, kept unread, reset, counted, or killed after its process was looked up again |
| Watchdog.PassEntry | hardening/openvas-watchdog/openvas-watchdog.py:149-203 | A scan's new entry and whether it is killed depend only on its own entry, what was seen of it and the kills before |
| Watchdog.FirstIsKilled | hardening/openvas-watchdog/openvas-watchdog.py:188-207 | A pass kills exactly the first scan in uuid order that is eligible, confirmed and reachable, so at most one |
| Watchdog.CanKillIff | hardening/openvas-watchdog/openvas-watchdog.py:166-203 | Idle for the third pass and for an hour, the same process found again, the signal sent |
| Watchdog.EntryLeaves | hardening/openvas-watchdog/openvas-watchdog.py:150-214 | The entry each kind of sight leaves |
| Watchdog.FrozenExtends | hardening/openvas-watchdog/openvas-watchdog.py:167-181 | A frozen pass extends the run of frozen passes the entry stands for, or begins one |
| Watchdog.EntriesRemember | hardening/openvas-watchdog/openvas-watchdog.py:138-216 | In every run each entry is backed by the saved passes it counts |
| Watchdog.KillNeedsFrozenRun | hardening/openvas-watchdog/openvas-watchdog.py:138-216 | Behind every kill stands a run of passes that read the scan frozen or left no trace of it, at least MIN_OBS frozen, one tick value, no children, KILL_S since the clock was set; it is unbroken if and only if no pass in it found the scan stirring and then failed to save |
| Watchdog.WorkingScanIsKilled | hardening/openvas-watchdog/openvas-watchdog.py:77-82 | A run of five passes that kills a scan the fourth, unsaved, saw with two children, in a process that need not be the one first seen |
| OfflineQueue.PaddedOrder | agent/internal/transport/queue.go:55 | Zero-padded numbers sort as strings if and only if they sort as numbers |
| OfflineQueue.NameOrder | agent/internal/transport/queue.go:149-152 | The same for file names, whose number reads back |
| OfflineQueue.NameText | agent/internal/transport/queue.go:55 | Twenty digits and ".json" |
| OfflineQueue.ItemsAre | agent/internal/transport/queue.go:134-147 | Items are exactly the files named so |
| OfflineQueue.SeqOfText | agent/internal/transport/queue.go:149-152 | The number of any file name, readable or not |
| OfflineQueue.NewestLast | agent/internal/transport/queue.go:51-64 | A new item is listed last and the rest stay in order |
| OfflineQueue.LastIsNewest | agent/internal/transport/queue.go:40-47 | The last listed name carries the largest number, so a reopened queue numbers on |
| OfflineQueue.Queue.NewQueue | agent/internal/transport/queue.go:32-48 | Opens over the existing items, ready to append after them |
| OfflineQueue.Queue.Enqueue | agent/internal/transport/queue.go:51-64 | The backlog becomes the newest maxItems of it and the payload; what is evicted is counted; a failed write changes nothing pending |
| OfflineQueue.Queue.Evict | agent/internal/transport/queue.go:66-78 | The oldest over the cap go, each counted |
| OfflineQueue.Queue.Flush | agent/internal/transport/queue.go:85-120 | A prefix goes, sent in order or refused and counted; the rest stays from the first transient failure or cancellation |
| OfflineQueue.ReachedIff | agent/internal/transport/queue.go:85-120 | A flush ends at the first transient failure or cancellation |
| OfflineQueue.SentAre | agent/internal/transport/queue.go:85-120 | Delivered are exactly the items whose sending succeeded, in order |
| OfflineQueue.RefusedAre | agent/internal/transport/queue.go:85-120 | Counted as dropped are exactly the refused ones |
| OfflineQueue.NewestAre | agent/internal/transport/queue.go:66-78 | The newest items up to the cap |
| OfflineQueue.StoredAre | agent/internal/agentd/agentd.go:236-249 | An inventory joins the backlog exactly if there is one and it was written |
| OfflineQueue.Agent.Tick | agent/internal/agentd/agentd.go:236-249 | Store, then flush; stored before plus this one equals delivered plus dropped plus still pending |
| OfflineQueue.NothingIsLost | agent/internal/transport/queue.go:32-152 | In every run everything stored is delivered, dropped or pending, deliveries follow storage order, pending is the newest suffix and within the cap |
| OfflineQueue.TickIsAStep | agent/internal/agentd/agentd.go:236-249 | A step of the history is the agent's tick: same backlog, same deliveries in order, and everything counted |
| Dotted.SplitOfJoined | correlation/scope.go:36-51 | Splitting a text joined at the separator splits its halves |
| Dotted.PartsPrefixIff | correlation/scope.go:36-51 | The parts of one text are the first parts of another if and only if the other is the same or goes on with a separator |
| RpmName.SplitInverts | correlation/notus.go:288-302 | NAME-VERSION-RELEASE.ARCH splits back for every non-empty name and known architecture |
| RpmName.SplitInvertsArchless | correlation/notus.go:288-302 | Without an architecture it splits back if and only if the last dot segment is not one |
| RpmName.SplitRejoins | correlation/notus.go:288-302 | Whatever is returned spells the input less a known architecture, in hyphen-free parts |
| Notus.ReleaseComponentsPrefix | correlation/scope.go:36-51 | The component loop |
| Notus.ReleasePrefixIff | correlation/scope.go:21-51 | A release applies to the same release and its minor releases and to nothing else |
| Notus.NotusCorrelator.IndexFile | correlation/notus.go:98-121 | Every well-formed entry is filed, in order, under its package name; unknown products are recorded |
| Notus.NotusCorrelator.Correlate | correlation/notus.go:156-213 | The report is the scan of every loaded entry for every package, in order, the first finding of each key kept |
| Notus.LoadedAre | correlation/notus.go:98-156 | What is filed under a name, field by field |
| Notus.InventoryFinds | correlation/notus.go:165-213 | The findings are exactly those of a package and an entry under its name of the same source, for the host's release, installed version vulnerable against fixed version |
| Notus.PackagesInOrder | correlation/notus.go:165-213 | Packages are reported in order |
| Notus.FirstIsReported | correlation/notus.go:193-197 | The first finding of a key is the one reported, in place |
| Notus.IndexFindsTheSame | correlation/notus.go:173-183 | Candidates from the index are what the scan finds |
| Notus.DedupIsExact | correlation/notus.go:193-197 | Each key found appears once |
| Notus.ReportIsExact | correlation/notus.go:165-197 | With bar-free OIDs each pair of OID and package appears once and every pair found appears |
| Msrc.ParseVersionLoop | correlation/msrc_csaf.go:239-254 | The components, or nothing if one is not a number |
| Msrc.VersionLess | correlation/msrc_csaf.go:267-288 | True if and only if both are non-empty and the first difference is downward, missing components counting as 0 |
| Msrc.VersionRoundTrip | correlation/msrc_csaf.go:239-254 | A version written out reads back as itself |
| Msrc.AtoiInRange | correlation/msrc_csaf.go:246-251 | Only numerals are read, signed or not, within 64 bits |
| Msrc.StrictWeakOrder | correlation/msrc_csaf.go:265-288 | The order is irreflexive, transitive and negatively transitive, and ties are equality up to trailing zeros |
| Msrc.MsrcCorrelator.Load | correlation/msrc.go:68-74 | The index holds every entry under its build, in order |
| Msrc.MsrcCorrelator.Correlate | correlation/msrc.go:79-126 | The report is the scan of every entry, and empty for a host that cannot be assessed |
| Msrc.ScanIsExact | correlation/msrc.go:95-103 | One finding per CVE, for exactly the CVEs with an entry above the host |
| Msrc.AssessableIff | correlation/msrc.go:86-92 | Windows in any case, a build and a revision that make a version |
| Msrc.FindingsAre | correlation/msrc.go:95-123 | The findings are exactly those of the first lacking entry of each CVE, field by field |
| Msrc.NotLowerFindsNoMore | correlation/msrc.go:96-99 | A host of the same build and no lower version has no more CVEs |
| Msrc.PatchingNeverAdds | correlation/msrc.go:86-99 | Raising a host's update revision never adds a finding |

## Left out

- Ed25519, SHA-256, AES-GCM, X.509 and PEM: signatures and hashes are free symbols; signing may fail and otherwise returns a fresh serial.
- The calendar layout of RFC 3339: an instant is rendered as its whole second.
- HTTP status mapping, nginx headers, JSON decoding beyond its effect on strings and the size limits (nesting depth, which the registry file deepens, among it), logging, environment configuration, `main` functions and installers.
- The file system beyond a write or rename that happens or leaves the old content: torn copies, failing deletions and listings, Windows rename-aside.
- `CommitIfHealthy` and `Apply` interrupted by power loss between two writes other than at the failures given as parameters; a loss between recording a commit and clearing the stage (agent/internal/update/apply.go:246-247) would break the floor property.
- SelfUpdateRuns.RolledBackVersionNeverReturns: in terms of normalized text, because the quarantine is; OtherSpellingIff says what that leaves open.
- How Go quotes a job type that is not plain text in the detail of a refusal.
- Eventual reporting: an acked remediation job is never redelivered, so a lost report is never learnt; only safety is claimed.
- The agent comparing a job's agent id with its own: the code does not, host binding is the server's.
- OfflineQueue.Queue.Enqueue: promises nothing once the 64-bit item counter has wrapped around, because file names then no longer sort in storage order.
- OfflineQueue.Queue.Flush: files that vanish or cannot be read, and a removal that fails after a send, are not modelled.
- OfflineQueue.NothingIsLost: rests on those files being readable and removable, and on the counter not wrapping around.
- SensorRuns.AckedMeansReported: assumes every sensor runs the supervisor's loop; tenant separation holds for any caller.
- ScanRuns.CompletedIsFinal: a restart may load a file that missed the save of COMPLETED.
- ScanRuns.LaunchesAreBounded: counts within one process; a launch whose save failed is repeated after a restart.
- ScanReconciler.Reconciler.Tick: runs without interference; ScanRuns models the interleavings and TickIsARun ties the two.
- The panic of `handleDelete` when its job was reaped between its two steps (ingest/scanlaunch/service.go:181-183): the model's second step does nothing then.
- `normalizeHosts` and `sortedUniquePorts`: request validation, easy members.
- ScopeGates.GatesAgree: that printed addresses read back as themselves is assumed of Go's net package; IPv4-mapped IPv6 literals are not modelled.
- ScopeSpecs.SpecAuthorizes: how Go's net package reads literals is assumed (ScopeSpecs.Lawful), not modelled.
- Notus.NotusCorrelator.Correlate: version comparison and the Debian name split are arbitrary functions, the libraries and regular expressions behind them are not part of this model.
- `windowsEntries`, `collectProductPairs` and `oidForCVE`: extraction of entries from advisories and minting of identifiers.
- ASCII only: Unicode blanks and case folding.
- Quoted name forms; of the slash-separated one-line form only that it is read, not how escapes in it are.
- Enrollment.CA.RevokeCertSerial: serials are numbers, so a malformed one cannot occur, and the list is not a file, so its save cannot fail; certificate lifetimes are not modelled either.
- The planner's pseudonymizer, the MSRC mirror, AI providers, tenants, commands and provisioning.
- Liveness and scheduling fairness, beyond the boot budget.
