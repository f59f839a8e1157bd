# Verification of the DSH ChatGPT gateway

A Dafny model of the stateful protocols of this repository, with proofs over every run. Each
protocol has a model file (values, one function per atomic step), proof files (what every step
keeps, theorems over all runs, and what each call answers and leaves, stated on the records alone)
and, where the source updates objects in place, a class whose methods follow the source statement
by statement and are proved to be the model's steps.

| part | files |
|---|---|
| Machine naming | `MachineNames` |
| Remote-worker job controller | `RemoteWorkerProfile`, `RemoteWorkerModel`, `RemoteWorkerProofs`, `RemoteWorkerProperties`, `RemoteWorkerProgress`, `RemoteWorkerDelivery`, `RemoteWorkerRecords`, `RemoteWorkerRuns`, `RemoteWorkerAnswers`, `RemoteWorkerCalls`, `RemoteWorkerController` |
| OAuth grant store | `OAuthModel`, `OAuthRefinement`, `OAuthFamilies`, `OAuthOutcomes`, `OAuthEffects`, `OAuthStore` |
| PIN attempt limiter and the approval page | `PinLimiter`, `ApprovalRoute` |
| Message bridge | `BridgeQueueModel`, `BridgeQueueProofs`, `BridgeQueueLives`, `BridgeTables`, `BridgeEvents`, `BridgeContacts`, `BridgeReports`, `BridgeStore` |
| Companions sending over the bridge | `CompanionProtocol`, `CompanionReports` |
| Task store | `TaskStoreModel`, `TaskStoreProofs`, `TaskOutcomes`, `TaskStore` |
| Continuation controller | `ContinuationModel`, `ContinuationProofs`, `ContinuationOutcomes`, `ContinuationController` |
| Capability-agent leases | `CapabilityLeases`, `CapabilityProofs`, `CapabilityOutcomes`, `CapabilityRegistry` |
| Join command | `JoinCommand` |
| Output budget | `Utf8`, `OutputBudget` |
| Shared | `Collections`, `JsText` |

Run `dafny verify dfyconfig.toml` to check the whole project.

## What the code does not promise

Some natural expectations are false of the code. The model keeps the code as it is, shows the
failing case, and proves when the expectation does hold.

- A result for a job that was never handed out is accepted; its queue entry stays behind and the
  skip branch of the queue then runs (`ConservationStep`, `EarlyResultIsAccepted`).
- An error report that is not an object is refused only after the job's record has been closed:
  its caller never hears anything (`UnansweredExactly`; a run that does it is `SilencedCaller`).
- After a rename a job can stay beside a parked poll with nobody about to look (`LostWakeup` is
  such a run). That happens exactly when a poll resumes whose captured name no longer leads to
  its own record and whose queue needed it (`StepWake`, `WakeupsKeptExactly`); it never happens
  unless a machine with an outstanding poll is renamed (`NoLostWakeup`).
- A poll can hand a machine a job of another identity (`ForeignDelivery` is such a run). That
  happens exactly when a poll resumes whose identity no longer goes by the captured name while a
  job waits under that name (`StepOwn`, `DeliveredToOwnerExactly`). It never happens unless a
  machine is renamed with an outstanding poll or revoked with one that was already woken or had
  timed out (`UndisplacedIsOwn`).
- Revoking an expired token, and reading an expired code, depend on whether the row has been
  deleted yet (`RevokeObliviousExactly`, `LoadCodeSeesPruningExactly`).
- A client that already holds a claim gets it again when polling from another host
  (`OtherHostExactlyWhenHeld`).
- Acknowledging a failure with an over-long error text is refused, but the message has already
  been marked failed (`RefusedAckSettlesExactly`).
- A write that expects revision 2^53-1 stores a record the reader rejects (`LastRevision`).
- The returned command output may end in a replacement character the command never wrote
  (`CutCharacterIsReturned`); `BothTrueExactly` says exactly when each text is a true beginning,
  in terms of the bytes captured, and `SilentStream` that it always is if the command is silent
  on the other stream.
- The limiter bounds wrong PINs since its last clear. All wrong PINs ever compared for a request
  stay within the limit for every window exactly if none is compared with limit of them inside
  its window (`RunSpacedExactly`). That holds until a denial or a right PIN clears the limiter, or
  a PIN is posted after the decision (`UnclearedIsLimited`); PINs for a decided request are
  compared without the limiter (`LateIsUnbounded`).
- A join command for a workdir containing NUL cannot be run by any shell
  (`JoinRoundTripExactly`).

## Model

| member | source | states |
|---|---|---|
| `MachineNames.DefaultNameIsValid` | dsh-remote-worker-plugin/controller.js:58-79 | for all user and host strings the generated machine name is one the registry accepts |
| `MachineNames.DefaultNameKeepsValidParts` | dsh-remote-worker-plugin/controller.js:66-79 | user and host parts that are already acceptable and fit are kept unchanged as user@host |
| `MachineNames.AlphabetIs` | dsh-remote-worker-plugin/controller.js:68-69 | the two alphabets by character code |
| `MachineNames.SquashReplaces` | dsh-remote-worker-plugin/controller.js:68-68 | a maximal run of characters outside the alphabet becomes one underscore, whatever follows |
| `MachineNames.SquashKeeps` | dsh-remote-worker-plugin/controller.js:68-68 | characters of the alphabet stay as they are, whatever follows |
| `MachineNames.NamePartExactly` | dsh-remote-worker-plugin/controller.js:66-72 | a part is the squashed text between its first and its last letter or digit, and the fallback exactly if it has neither |
| `MachineNames.DefaultNameExactly` | dsh-remote-worker-plugin/controller.js:74-79 | the generated name is the longest beginning of user@host of at most 128 characters that ends with a letter or digit |
| `MachineNames.CandidateInjective` | dsh-remote-worker-plugin/controller.js:281-283 | distinct collision suffixes give distinct names although the base is sliced to make room |
| `MachineNames.CandidateIsValid` | dsh-remote-worker-plugin/controller.js:281-283 | a candidate is a valid name of at most 128 characters for every suffix the search can reach |
| `MachineNames.NextFree` | dsh-remote-worker-plugin/controller.js:281-283 | the search ends, at the first suffix from k whose candidate is not taken; every earlier one is taken |
| `MachineNames.SearchIsShort` | dsh-remote-worker-plugin/controller.js:281-283 | the search from 2 makes at most one try more than there are machines |
| `MachineNames.FreshName` | dsh-remote-worker-plugin/controller.js:279-284 | the suffix loop returns an unused valid name, the first free candidate, within table size plus one tries |
| `RemoteWorkerProofs.StepInv` | dsh-remote-worker-plugin/controller.js:266-550 | every call, timer and poll resumption keeps the registry, job, queue and invite invariants |
| `RemoteWorkerProofs.RunInv` | dsh-remote-worker-plugin/controller.js:160-551 | the invariants hold in every state of every run |
| `RemoteWorkerProperties.StepGrows` | dsh-remote-worker-plugin/controller.js:355-550 | no step forgets a job record, changes its owner, or rewrites its settlements and deliveries |
| `RemoteWorkerProperties.AcceptedExactlyWhenSettled` | dsh-remote-worker-plugin/controller.js:465-486 | a result is answered accepted exactly when this call settles the caller, and then with a result of the identity the job was dispatched to |
| `RemoteWorkerProperties.UnansweredExactly` | dsh-remote-worker-plugin/controller.js:473-484 | a caller is left without any answer exactly by an error report that is not an object, for a live job of the reporting machine |
| `RemoteWorkerProperties.SettledOnceByOwner` | dsh-remote-worker-plugin/controller.js:355-550 | in every run, across renames, revocation and re-enrolment, a caller is settled at most once and never by another identity |
| `RemoteWorkerProperties.DispatchBindsIdentity` | dsh-remote-worker-plugin/controller.js:488-550 | a dispatched job is bound to the token identity its machine has at that moment |
| `RemoteWorkerProperties.ConservationStep` | dsh-remote-worker-plugin/controller.js:355-550 | queues keep holding exactly the waiting jobs of their machines across every step, except exactly when a result arrives for a job not yet handed out |
| `RemoteWorkerProperties.EarlyResultIsAccepted` | dsh-remote-worker-plugin/controller.js:465-486 | that exception exists: a result for a queued job is accepted and leaves a dead queue entry |
| `RemoteWorkerProperties.RunConserved` | dsh-remote-worker-plugin/controller.js:355-550 | over every run: every state so far is conserved, exactly if every result so far was for a job already handed out |
| `RemoteWorkerProperties.NothingToSkip` | dsh-remote-worker-plugin/controller.js:443-453 | in a conserved state the branch that skips dead queue entries never runs |
| `RemoteWorkerProperties.ImmediateDelivery` | dsh-remote-worker-plugin/controller.js:402-409 | a poll answered at once gets a waiting job of its own identity that was never delivered before |
| `RemoteWorkerProperties.ResumedDelivery` | dsh-remote-worker-plugin/controller.js:421-432 | a woken poll delivers a job of its own identity exactly when that identity still goes by the captured name |
| `RemoteWorkerDelivery.StepOwn` | dsh-remote-worker-plugin/controller.js:402-453 | for every step: every delivery stays one to the identity the job was dispatched to, exactly if the step does not resume a poll whose identity no longer goes by the captured name while a job waits under that name |
| `RemoteWorkerDelivery.DeliveredToOwnerExactly` | dsh-remote-worker-plugin/controller.js:402-453 | over every run: every delivery so far was to the owner, exactly if no event so far strayed |
| `RemoteWorkerDelivery.StepCurrent` | dsh-remote-worker-plugin/controller.js:355-432 | for every step: the identities of outstanding polls keep their captured names, exactly if the step does not rename a machine with an outstanding poll or revoke one with a poll already woken or timed out |
| `RemoteWorkerDelivery.UndisplacedIsOwn` | dsh-remote-worker-plugin/controller.js:355-432 | in a run without such a step every delivery is to the owner |
| `RemoteWorkerProgress.StepWake` | dsh-remote-worker-plugin/controller.js:402-453 | for every step, renames included: beside a parked poll a queue stays no longer than the polls already signalled, exactly if the step does not resume a poll that tips, that is, whose captured name no longer leads to its own record, whose record is still a machine's with parked polls, and whose queue needs every signalled poll |
| `RemoteWorkerProgress.WakeupsKeptExactly` | dsh-remote-worker-plugin/controller.js:355-453 | over every run: no state so far has a job beside a parked poll with nobody about to look, exactly if no poll was resumed that tips |
| `RemoteWorkerProgress.NoLostWakeup` | dsh-remote-worker-plugin/controller.js:402-453 | no poll tips in a run that never renames a machine with an outstanding poll |
| `RemoteWorkerProgress.ParkedMeansEmptyQueue` | dsh-remote-worker-plugin/controller.js:402-453 | once signalled polls have resumed, no job waits beside a parked poll |
| `RemoteWorkerProgress.RenameKeepsNames` | dsh-remote-worker-plugin/controller.js:355-377 | a rename that takes effect keeps captured poll names valid exactly when no poll is outstanding on the machine |
| `RemoteWorkerProgress.RenameLosesWakeup` | dsh-remote-worker-plugin/controller.js:421-425 | with two parked polls, a rename and a dispatch leave a job beside a parked poll with nobody about to look |
| `RemoteWorkerRuns.LostWakeup` | dsh-remote-worker-plugin/controller.js:355-432 | a run of five calls from the start of a controller with one machine whose last resumption tips and loses the wake-up |
| `RemoteWorkerRuns.SilencedCaller` | dsh-remote-worker-plugin/controller.js:402-486 | a run of four calls from the start in which a delivered job is closed and its caller is not told |
| `RemoteWorkerRuns.ForeignDelivery` | dsh-remote-worker-plugin/controller.js:355-432 | a run of seven calls from the start of a controller with two machines whose last resumption hands a job of one machine to the other |
| `RemoteWorkerRecords.RecordsReadBack` | dsh-remote-worker-plugin/controller.js:112-133 | in every run every stored machine record passes the checks of reading it and reads back as it was stored |
| `RemoteWorkerRecords.CapabilitiesReadBack` | dsh-remote-worker-plugin/controller.js:81-87 | checked capabilities are stored in a trimmed form that reads back unchanged |
| `RemoteWorkerController.RestartLoads` | dsh-remote-worker-plugin/controller.js:182-193 | the table of every reachable state loads when the controller starts again |
| `RemoteWorkerProgress.PendingIsBrief` | dsh-remote-worker-plugin/controller.js:530-539 | with timers on time no job is pending past its expiry plus the larger of two heartbeats and 30 s |
| `RemoteWorkerProgress.PendingIsBounded` | dsh-remote-worker-plugin/controller.js:493-497 | uncancelled pending jobs and queue length per machine never exceed the configured maximum, also across renames |
| `RemoteWorkerAnswers.HeartbeatTells` | dsh-remote-worker-plugin/controller.js:455-463 | a heartbeat of a known identity changes no job and is answered with a cancellation exactly if the job is on record, its own, and its caller gave up by aborting or by timeout |
| `RemoteWorkerAnswers.RunClosings` | dsh-remote-worker-plugin/controller.js:355-550 | in every run, a pending job whose caller was settled was given up by that caller |
| `RemoteWorkerAnswers.ToldUntilItGoes` | dsh-remote-worker-plugin/controller.js:455-463 | in every run, once the caller of a job on record has given up, every heartbeat of the owner says so until the record goes, and no heartbeat of another identity does |
| `RemoteWorkerCalls.CreateInviteExactly` | dsh-remote-worker-plugin/controller.js:238-264 | for every call: the answer for each thing that can be wrong, in order; otherwise exactly one invite more, for what was asked; expired ones are gone |
| `RemoteWorkerCalls.RegisterErrorIs` | dsh-remote-worker-plugin/controller.js:266-284 | the answer to a registration that is refused, for the first thing wrong with it |
| `RemoteWorkerCalls.InfoIs` | dsh-remote-worker-plugin/controller.js:74-76 | user and host of the generated name are the info fields as text, and empty where they are missing or null |
| `RemoteWorkerCalls.RegisterExactly` | dsh-remote-worker-plugin/controller.js:266-305 | every other registration uses up the invite and enrols one new identity under a free name, with a record of what it said; no other machine, job or poll changes |
| `RemoteWorkerCalls.ResumeExactly` | dsh-remote-worker-plugin/controller.js:307-318 | what is stated replaces what was stored, everything else stays; a refusal changes nothing |
| `RemoteWorkerCalls.HeartbeatExactly` | dsh-remote-worker-plugin/controller.js:455-463 | a heartbeat of a known identity marks its machine seen and changes nothing else; any other is refused and changes nothing |
| `RemoteWorkerCalls.RenameExactly` | dsh-remote-worker-plugin/controller.js:355-377 | the answer for each thing that can be wrong; otherwise table, identity, runtime record and pending jobs have the new name and all else is as it was |
| `RemoteWorkerCalls.RevokeExactly` | dsh-remote-worker-plugin/controller.js:379-400 | the machine, its name and exactly its pending jobs are gone, the callers that waited are told of the revocation, and so are its parked polls |
| `RemoteWorkerCalls.PollStartExactly` | dsh-remote-worker-plugin/controller.js:402-420 | the first live job of the own queue, found behind dead entries only, is handed out and recorded; without one the poll waits behind the earlier ones |
| `RemoteWorkerCalls.PollTimeoutExactly` | dsh-remote-worker-plugin/controller.js:416-419 | a poll whose time is up no longer waits and is resolved; nothing else changes |
| `RemoteWorkerCalls.PollResumeExactly` | dsh-remote-worker-plugin/controller.js:421-432 | a resumed poll gets the refusal after a revocation, else the first live job under the captured name, else nothing |
| `RemoteWorkerCalls.SubmitExactly` | dsh-remote-worker-plugin/controller.js:465-486 | the four fates of a result: not on record, foreign, late, live; and of a live one with a malformed error |
| `RemoteWorkerCalls.DispatchAnswers` | dsh-remote-worker-plugin/controller.js:488-500 | the answer to a dispatch: unknown, offline, full, bad timeout or accepted, each exactly under its condition on the records |
| `RemoteWorkerCalls.DispatchExactly` | dsh-remote-worker-plugin/controller.js:501-549 | an accepted job goes to the end of the queue of its machine, bound to the identity of that name and due in time, and the longest-waiting poll is told; aborted at once, it leaves queue and record again |
| `RemoteWorkerCalls.CancelExactly` | dsh-remote-worker-plugin/controller.js:518-529 | a caller that still waits gives up: an unclaimed job leaves its queue and the record, a claimed one stays on record, cancelled |
| `RemoteWorkerCalls.AbortExactly` | dsh-remote-worker-plugin/controller.js:518-549 | an abort is a give-up whose caller is told of the abort |
| `RemoteWorkerCalls.ExpireExactly` | dsh-remote-worker-plugin/controller.js:530-538 | a timeout is a give-up whose caller is told of the timeout; the record of a claimed job goes after two heartbeats, or 30 s if that is longer |
| `RemoteWorkerCalls.GraceOverExactly` | dsh-remote-worker-plugin/controller.js:533-536 | the record of the job goes, and nothing else |
| `RemoteWorkerCalls.TimeExactly` | dsh-remote-worker-plugin/controller.js:160-551 | no call changes the configuration or the clock, and the passing of time changes nothing else |
| `RemoteWorkerController.Controller.Create` | dsh-remote-worker-plugin/controller.js:161-193 | loading fails exactly on a row stored under another name or with a bad name, or on two rows of one identity; otherwise the object is an initial state of the model over the stored rows |
| `RemoteWorkerController.Controller.LoadWorkers` | dsh-remote-worker-plugin/controller.js:182-193 | the loading loop stops exactly on such a row; otherwise it maps every stored identity to its name and gives every name its own empty runtime record |
| `RemoteWorkerController.Controller.Take` | dsh-remote-worker-plugin/controller.js:443-453 | the shifting loop takes the first live entry, claims it and drops the dead ones before it |
| `RemoteWorkerController.Controller.Wake` | dsh-remote-worker-plugin/controller.js:435-441 | signals the longest-waiting poll and takes it off the waiters |
| `RemoteWorkerController.Controller.ExpireInvites` | dsh-remote-worker-plugin/controller.js:231-236 | exactly the expired invites are deleted |
| `RemoteWorkerController.Controller.CreateInvite` | dsh-remote-worker-plugin/controller.js:238-264 | refuses without a configured base URL; drops expired invites, then refuses a 33rd invite, a bad name, workdir or lifetime and an existing machine, else records one invite |
| `RemoteWorkerController.Controller.Register` | dsh-remote-worker-plugin/controller.js:266-305 | checks protocol version, given name, info, workdir and capabilities in the order of the source; redeems a live invite once, enforces its bound name, refuses taken chosen names, else enrols one new identity with its trimmed capabilities under a free name |
| `RemoteWorkerController.Controller.ChooseName` | dsh-remote-worker-plugin/controller.js:278-284 | keeps a free name and otherwise picks the first free candidate |
| `RemoteWorkerController.Controller.Resume` | dsh-remote-worker-plugin/controller.js:307-318 | only for a known identity and a good protocol version, workdir, capabilities and info: replaces what is given of the stored record and marks the machine seen |
| `RemoteWorkerController.Controller.Rename` | dsh-remote-worker-plugin/controller.js:355-377 | moves table record, identity, runtime record and pending jobs to a free valid name, and nothing else |
| `RemoteWorkerController.Controller.RenameLoop` | dsh-remote-worker-plugin/controller.js:373-375 | renames the machine of exactly the pending jobs that had the old name |
| `RemoteWorkerController.Controller.Revoke` | dsh-remote-worker-plugin/controller.js:379-400 | removes table record and identity, tells the parked polls, and closes exactly the machine's pending jobs |
| `RemoteWorkerController.Controller.RevokeLoop` | dsh-remote-worker-plugin/controller.js:390-398 | removes exactly the machine's pending jobs, disarms them and settles the unsettled callers |
| `RemoteWorkerController.Controller.WakeRevoked` | dsh-remote-worker-plugin/controller.js:386-389 | tells every parked poll of the machine that it was revoked |
| `RemoteWorkerController.Controller.PollStart` | dsh-remote-worker-plugin/controller.js:402-420 | for a known identity and the supported protocol version marks the machine seen and either returns the first live queued job, claimed, or parks behind the earlier polls |
| `RemoteWorkerController.Controller.PollTimeout` | dsh-remote-worker-plugin/controller.js:416-419 | an unresolved parked poll is resolved as timed out and leaves the waiters |
| `RemoteWorkerController.Controller.PollResume` | dsh-remote-worker-plugin/controller.js:421-432 | fails if revoked, else takes from the queue of whatever machine has the captured name now |
| `RemoteWorkerController.Controller.Heartbeat` | dsh-remote-worker-plugin/controller.js:455-463 | marks the machine seen and reports cancellation exactly for a cancelled pending job of this machine |
| `RemoteWorkerController.Controller.SubmitResult` | dsh-remote-worker-plugin/controller.js:465-486 | unknown job not accepted, foreign job refused, late result dropped with its record, live job settled, malformed error refused after closing the job |
| `RemoteWorkerController.Controller.Dispatch` | dsh-remote-worker-plugin/controller.js:488-549 | refuses unknown, offline and full machines and bad timeouts, else queues one new job, wakes the first waiter, and cancels at once if already aborted |
| `RemoteWorkerController.Controller.Cancel` | dsh-remote-worker-plugin/controller.js:518-529 | does nothing to a settled caller; splices an unclaimed job out of its own queue and forgets it; only marks a claimed one |
| `RemoteWorkerController.Controller.Expire` | dsh-remote-worker-plugin/controller.js:530-538 | cancels with a timeout and leaves a claimed job to a grace timer |
| `RemoteWorkerController.Controller.GraceOver` | dsh-remote-worker-plugin/controller.js:533-536 | forgets the job, if it is still pending |
| `OAuthRefinement.CountsAgree` | src/dsh_mcp_gateway/oauth.py:556-565 | after pruning, the total and per-client pending counts are the counts of live rows of the history |
| `OAuthRefinement.StepAgrees` | src/dsh_mcp_gateway/oauth.py:482-863 | one call on the pruning store and on a store that never deletes by age answers the same and keeps the two coupled |
| `OAuthRefinement.RunCoupled` | src/dsh_mcp_gateway/oauth.py:482-878 | with a non-decreasing clock and deletions of expired rows anywhere, the stores stay coupled in every run whose code reads and revocations meet live or unknown rows |
| `OAuthRefinement.PruningIsInvisible` | src/dsh_mcp_gateway/oauth.py:482-878 | every call of every such run, code reads and exchanges included, gets the answer the history gives |
| `OAuthRefinement.RevokeSeesPruning` | src/dsh_mcp_gateway/oauth.py:865-878 | revoking an expired access token ends the grant if its row is still there and does nothing once it was deleted |
| `OAuthRefinement.RevokeObliviousExactly` | src/dsh_mcp_gateway/oauth.py:865-878 | revoking is unaffected by a deletion exactly when the token is unknown, its row is live, or its grant has no live token |
| `OAuthRefinement.LoadCodeSeesPruningExactly` | src/dsh_mcp_gateway/oauth.py:700-718 | reading a code is affected by a deletion exactly when the client's row is there and expired, which is what the run theorems exclude |
| `OAuthFamilies.StepInv` | src/dsh_mcp_gateway/oauth.py:482-878 | every transaction keeps the record of requests, codes, grants and tokens consistent with the five tables |
| `OAuthFamilies.RunInv` | src/dsh_mcp_gateway/oauth.py:482-878 | the invariant holds in every state of every run |
| `OAuthOutcomes.ExchangeExactly` | src/dsh_mcp_gateway/oauth.py:720-783 | a code is exchanged exactly when it was issued to this client, is unexchanged and unexpired |
| `OAuthOutcomes.DecidableExactly` | src/dsh_mcp_gateway/oauth.py:587-698 | a request can be seen, approved and denied exactly while it is on record, undecided and unexpired |
| `OAuthOutcomes.CompletedExactly` | src/dsh_mcp_gateway/oauth.py:663-674 | a retried approval is answered with the request's code exactly while that code is unexchanged and unexpired |
| `OAuthOutcomes.AccessExactly` | src/dsh_mcp_gateway/oauth.py:785-790 | an access token is honoured exactly when it was issued, its grant is unrevoked and it is unexpired |
| `OAuthOutcomes.RefreshExactly` | src/dsh_mcp_gateway/oauth.py:792-797 | a refresh token is honoured exactly when issued to this client, unspent, unrevoked and unexpired |
| `OAuthOutcomes.RotateExactly` | src/dsh_mcp_gateway/oauth.py:799-863 | rotation succeeds exactly for a good token and scopes within its own, and distinguishes the two refusals |
| `OAuthOutcomes.RunGrows` | src/dsh_mcp_gateway/oauth.py:482-878 | verdicts, issued codes, exchanges, grants, tokens and revocations are never undone or changed |
| `OAuthOutcomes.OneVerdict` | src/dsh_mcp_gateway/oauth.py:609-698 | over any interleaving a request is approved or denied at most once and never both |
| `OAuthOutcomes.RetrySameCode` | src/dsh_mcp_gateway/oauth.py:1048-1066 | after an approval every retry finds no pending request and is answered with the same code while it lasts |
| `OAuthOutcomes.OneExchange` | src/dsh_mcp_gateway/oauth.py:720-783 | a code is exchanged at most once in a run |
| `OAuthOutcomes.OneGrantPerRequest` | src/dsh_mcp_gateway/oauth.py:609-783 | a request leads to at most one grant |
| `OAuthOutcomes.FamilyIsConstant` | src/dsh_mcp_gateway/oauth.py:720-863 | all tokens ever issued under a grant share client, issuer, resource and subject, and stay within the authorized scopes |
| `OAuthOutcomes.ScopesShrink` | src/dsh_mcp_gateway/oauth.py:799-863 | scopes only shrink along a line of rotations, which stays in one grant |
| `OAuthOutcomes.RotationLinks` | src/dsh_mcp_gateway/oauth.py:799-863 | every rotation spends the old token and adds one link with the requested scopes |
| `OAuthOutcomes.OneRefreshRow` | src/dsh_mcp_gateway/oauth.py:799-863 | a grant has at most one refresh row at any time |
| `OAuthOutcomes.RevokeIsFinal` | src/dsh_mcp_gateway/oauth.py:865-878 | after revoking a stored member token no token of its grant exists or is honoured ever again |
| `OAuthOutcomes.CapsHold` | src/dsh_mcp_gateway/oauth.py:496-565 | client, pending and per-client caps hold in every state |
| `OAuthOutcomes.RunWithin` | src/dsh_mcp_gateway/oauth.py:910-934 | requests admitted by the authorization rule stay within the configured scopes and resource |
| `OAuthOutcomes.TokensWithinConfiguration` | src/dsh_mcp_gateway/oauth.py:910-934 | no token at any depth of rotation exceeds the configured scopes or names another resource |
| `OAuthEffects.SaveClientExactly` | src/dsh_mcp_gateway/oauth.py:496-512 | stored exactly if the client is known or the table is not full; beside it exactly the expired rows go |
| `OAuthEffects.SavePendingExactly` | src/dsh_mcp_gateway/oauth.py:546-585 | stored as given exactly while the live requests, in all and of the client, are below their caps |
| `OAuthEffects.LoadClientExactly` | src/dsh_mcp_gateway/oauth.py:514-522 | reading a client changes nothing and answers its metadata, if it is known |
| `OAuthEffects.LoadPendingExactly` | src/dsh_mcp_gateway/oauth.py:587-607 | the answer is the row while it is live; exactly the expired requests go |
| `OAuthEffects.ApproveExactly` | src/dsh_mcp_gateway/oauth.py:609-661 | a live request, and no other, goes and leaves one code row with its request, which lasts as long as codes do from now |
| `OAuthEffects.DenyExactly` | src/dsh_mcp_gateway/oauth.py:676-698 | a live request, and no other, goes |
| `OAuthEffects.LoadCompletedExactly` | src/dsh_mcp_gateway/oauth.py:663-674 | the answer is a live code made from this request, and none exactly if there is none |
| `OAuthEffects.LoadExactly` | src/dsh_mcp_gateway/oauth.py:700-797 | reading a code, an access or a refresh token changes nothing and answers the row, of this client where one is named, and live for tokens |
| `OAuthEffects.ExchangeExactly` | src/dsh_mcp_gateway/oauth.py:720-783 | a live code of this client goes and leaves an access and a refresh row, field by field, with the two lifetimes from now; otherwise nothing changes |
| `OAuthEffects.RotateExactly` | src/dsh_mcp_gateway/oauth.py:799-863 | a live refresh row of this client goes and leaves a new pair of its grant, field by field, with exactly the requested scopes and new lifetimes; otherwise nothing changes |
| `OAuthEffects.RevokeExactly` | src/dsh_mcp_gateway/oauth.py:865-878 | exactly the rows of the grant of the token go, and the expired ones; nothing for an unknown token |
| `OAuthStore.Database.PruneExpired` | src/dsh_mcp_gateway/oauth.py:482-487 | deletes exactly the expired rows, tokens by whole seconds |
| `OAuthStore.Database.SaveClientLimited` | src/dsh_mcp_gateway/oauth.py:496-512 | refuses exactly a new client in a full table; otherwise stores the metadata; prunes either way |
| `OAuthStore.Database.SavePendingLimited` | src/dsh_mcp_gateway/oauth.py:546-585 | refuses exactly when the live requests reach the total or the client cap; otherwise inserts the request |
| `OAuthStore.Database.LoadPendingRequest` | src/dsh_mcp_gateway/oauth.py:587-607 | drops expired requests and returns the row that is left |
| `OAuthStore.Database.ConsumePendingForCode` | src/dsh_mcp_gateway/oauth.py:609-661 | turns a live pending request into a code row with its request and a fresh expiry, in one step |
| `OAuthStore.Database.LoadCompletedApproval` | src/dsh_mcp_gateway/oauth.py:663-674 | prunes and returns the one code of the request, if it is still stored |
| `OAuthStore.Database.ApproveOrRepeat` | src/dsh_mcp_gateway/oauth.py:1048-1066 | answers the new code if the request was pending, otherwise the code an earlier approval left |
| `OAuthStore.Database.DeletePending` | src/dsh_mcp_gateway/oauth.py:676-698 | removes and returns a live pending request |
| `OAuthStore.Database.ConsumeCodeAndIssueTokens` | src/dsh_mcp_gateway/oauth.py:720-783 | a live code of this client is deleted and one access and one refresh row of a new grant inserted; otherwise nothing changes |
| `OAuthStore.Database.LoadAccessToken` | src/dsh_mcp_gateway/oauth.py:785-790 | returns exactly an unexpired access row |
| `OAuthStore.Database.LoadRefreshToken` | src/dsh_mcp_gateway/oauth.py:792-797 | returns exactly an unexpired refresh row of this client |
| `OAuthStore.Database.RotateRefresh` | src/dsh_mcp_gateway/oauth.py:799-863 | replaces a live refresh row by a new pair of the same grant with the requested scopes, or refuses without change |
| `OAuthStore.Database.IsSubset` | src/dsh_mcp_gateway/oauth.py:820-823 | decides whether every requested scope is allowed |
| `OAuthStore.Database.RevokeToken` | src/dsh_mcp_gateway/oauth.py:865-878 | deletes every row of the grant of a stored token, access rows looked up first, and nothing otherwise |
| `PinLimiter.KeptCount` | src/dsh_mcp_gateway/oauth.py:1137-1139 | the length of a pruned deque is the number of failures in the full history that lie within the window |
| `PinLimiter.WindowHoldsLimit` | src/dsh_mcp_gateway/oauth.py:1120-1166 | no closed window, wherever it lies, holds more than limit failures of a spaced history |
| `PinLimiter.FewInside` | src/dsh_mcp_gateway/oauth.py:1150-1155 | with fewer than limit failures inside the window the limit-th last one is outside |
| `PinLimiter.FailSpaced` | src/dsh_mcp_gateway/oauth.py:1235-1245 | a failure recorded after an allowed check keeps any limit plus one consecutive failures wider apart than the window |
| `PinLimiter.PinAttemptLimiter.Create` | src/dsh_mcp_gateway/oauth.py:1129-1135 | refuses exactly the limits and windows that are not positive |
| `PinLimiter.PinAttemptLimiter.Prune` | src/dsh_mcp_gateway/oauth.py:1137-1139 | popping from the front drops exactly the leading failures outside the window |
| `PinLimiter.PinAttemptLimiter.PruneEach` | src/dsh_mcp_gateway/oauth.py:1141-1148 | prunes every deque and drops the empty ones |
| `PinLimiter.PinAttemptLimiter.Allowed` | src/dsh_mcp_gateway/oauth.py:1150-1155 | answers exactly whether fewer than limit failures since the last clear lie within the window |
| `PinLimiter.PinAttemptLimiter.Fail` | src/dsh_mcp_gateway/oauth.py:1157-1162 | appends to the history; exactly the requests with a failure in the window keep an entry |
| `PinLimiter.PinAttemptLimiter.Clear` | src/dsh_mcp_gateway/oauth.py:1164-1166 | forgets one request and keeps the others |
| `PinLimiter.PinAttemptLimiter.Attempt` | src/dsh_mcp_gateway/oauth.py:1235-1245 | one PIN posted for a pending request as the approval page handles it, keeping every request rate limited since its last clear |
| `PinLimiter.PinAttemptLimiter.Deny` | src/dsh_mcp_gateway/oauth.py:1229-1234 | a denial clears the request and keeps the others rate limited |
| `PinLimiter.PinAttemptLimiter.AttemptLate` | src/dsh_mcp_gateway/oauth.py:1211-1219 | a PIN posted for a request no longer pending is compared whatever failed before and a mismatch is not recorded; a match clears exactly if a code is still there |
| `ApprovalRoute.StepSpacedExactly` | src/dsh_mcp_gateway/oauth.py:1203-1245 | for every step of interleaved posts: the window bound over all wrong PINs ever compared, whatever was cleared, is kept exactly if no wrong PIN is compared with limit of them inside the window before it |
| `ApprovalRoute.RunSpacedExactly` | src/dsh_mcp_gateway/oauth.py:1203-1245 | in every run that bound holds exactly if no event so far exceeded it |
| `ApprovalRoute.UnclearedIsLimited` | src/dsh_mcp_gateway/oauth.py:1203-1245 | until a denial, a right PIN or a PIN posted after the decision, the limiter knows every wrong PIN and no window holds more than limit of them |
| `ApprovalRoute.LateIsUnbounded` | src/dsh_mcp_gateway/oauth.py:1211-1219 | for every n there is a run in which n wrong PINs are compared at one time after the approval |
| `ApprovalRoute.StepExactly` | src/dsh_mcp_gateway/oauth.py:1203-1245 | for every event: how many posts, denials, approvals and retries are under way after it, what has been decided, and when |
| `ApprovalRoute.DecisionStands` | src/dsh_mcp_gateway/oauth.py:1203-1245 | in every run the first decision stands, a denial for good and an approval until it lapses |
| `ApprovalRoute.RunRecords` | src/dsh_mcp_gateway/oauth.py:1150-1245 | in every run the limiter knows exactly the wrong PINs compared while the request was pending, since the last denial, right PIN or successful retry |
| `BridgeQueueProofs.TrimKeepsActive` | dsh-chatgpt-web-bridge-plugin/index.js:362-367 | trimming drops no active message, keeps their order and keeps the latest 64 settled ones |
| `BridgeQueueProofs.StepInv` | dsh-chatgpt-web-bridge-plugin/index.js:84-174 | every operation keeps ids distinct, active messages in enqueue order, one claim per client and both bounds |
| `BridgeQueueProofs.QueueBounds` | dsh-chatgpt-web-bridge-plugin/index.js:84-128 | in every state at most 64 messages are active and 128 stored, and no client holds two claims |
| `BridgeQueueProofs.PollDelivers` | dsh-chatgpt-web-bridge-plugin/index.js:109-128 | a poll gets the message its client still holds, else the oldest claimable one including leases that just ran out, else nothing |
| `BridgeQueueProofs.NewClaimNeedsHost` | dsh-chatgpt-web-bridge-plugin/index.js:109-128 | a new claim on a message with a target host is made only by a poll carrying that host |
| `BridgeQueueProofs.OtherHostExactlyWhenHeld` | dsh-chatgpt-web-bridge-plugin/index.js:116-117 | a poll gets a message meant for another host exactly when its client already holds it |
| `BridgeQueueProofs.DispatchingStays` | dsh-chatgpt-web-bridge-plugin/index.js:137-174 | a message in dispatch fails closed: nothing but an acknowledgement of the dispatching client moves it |
| `BridgeQueueProofs.RefusedAckSettlesExactly` | dsh-chatgpt-web-bridge-plugin/index.js:154-174 | a refused acknowledgement changes the queue exactly when a failure of the dispatching client carries an over-long error text |
| `BridgeQueueProofs.AckSettlesExactly` | dsh-chatgpt-web-bridge-plugin/index.js:154-174 | an acknowledgement succeeds exactly for the dispatching client with an error text that fits |
| `BridgeQueueLives.EnqueueExactly` | dsh-chatgpt-web-bridge-plugin/index.js:84-107 | accepted exactly with a good text and host and fewer than 64 active messages; the one new message carries the trimmed text, the source and the target as given, and stands behind the active ones |
| `BridgeQueueLives.PollExactly` | dsh-chatgpt-web-bridge-plugin/index.js:109-128 | for every poll: which message is taken or kept and until when, or why none is; every other message only loses a lease that ran out |
| `BridgeQueueLives.BeginExactly` | dsh-chatgpt-web-bridge-plugin/index.js:137-152 | permission is given exactly to the client that holds the message; then that message is in dispatch, and no other changes |
| `BridgeQueueLives.AckExactly` | dsh-chatgpt-web-bridge-plugin/index.js:154-174 | a report is accepted exactly from the client that is sending the message, with an error text that fits |
| `BridgeQueueLives.AckReports` | dsh-chatgpt-web-bridge-plugin/index.js:154-174 | after an accepted report that message is sent if it said so and failed otherwise, with the given error only on a failure, and every other message is untouched |
| `BridgeQueueLives.StepBecomes` | dsh-chatgpt-web-bridge-plugin/index.js:84-174 | for every call: each stored message was just enqueued, or was stored before and is unchanged, freed of a lease that ran out, taken, granted or settled by this very call |
| `BridgeQueueLives.EveryMessageWasEnqueued` | dsh-chatgpt-web-bridge-plugin/index.js:84-107 | in every run every stored message carries the text, source and target of the one call that enqueued it |
| `BridgeQueueLives.SettledForGood` | dsh-chatgpt-web-bridge-plugin/index.js:154-174 | in every run a settled message never changes again while it is stored |
| `BridgeQueueLives.SettledWasReported` | dsh-chatgpt-web-bridge-plugin/index.js:154-174 | in every run a settled message says what the client that was sending it reported |
| `BridgeQueueLives.NewClaimForItsHost` | dsh-chatgpt-web-bridge-plugin/index.js:109-128 | in every run a message enqueued for a host is newly claimed only by a poll carrying that host |
| `BridgeTables.LookupIsFreshest` | dsh-chatgpt-web-bridge-plugin/index.js:269-300 | a lookup by host or conversation finds the most recently seen match and misses one only behind 32 rows at least as recent |
| `BridgeStore.ChatGPTWebBridgeStore.ReleaseExpiredClaims` | dsh-chatgpt-web-bridge-plugin/index.js:352-360 | exactly the claims whose lease has run out become pending again, in place |
| `BridgeStore.ChatGPTWebBridgeStore.Split` | dsh-chatgpt-web-bridge-plugin/index.js:87-87 | separates active and settled messages in stored order |
| `BridgeStore.ChatGPTWebBridgeStore.TrimSettledMessages` | dsh-chatgpt-web-bridge-plugin/index.js:362-367 | beyond 128 messages keeps the latest 64 settled ones followed by all active ones |
| `BridgeStore.ChatGPTWebBridgeStore.Enqueue` | dsh-chatgpt-web-bridge-plugin/index.js:84-107 | refuses bad texts and hosts and a 65th active message, else appends one pending message and trims |
| `BridgeStore.ChatGPTWebBridgeStore.Search` | dsh-chatgpt-web-bridge-plugin/index.js:116-117 | the first message the client holds, else the first eligible pending one |
| `BridgeStore.ChatGPTWebBridgeStore.Poll` | dsh-chatgpt-web-bridge-plugin/index.js:109-128 | releases old leases, then leases or re-leases the chosen message for 30 s and touches the companion's row |
| `BridgeStore.ChatGPTWebBridgeStore.BeginSend` | dsh-chatgpt-web-bridge-plugin/index.js:137-152 | moves exactly a message claimed by this client to dispatching; refuses otherwise without change |
| `BridgeStore.ChatGPTWebBridgeStore.Ack` | dsh-chatgpt-web-bridge-plugin/index.js:154-174 | settles exactly a message this client is dispatching, also when the error text is then refused |
| `BridgeStore.ChatGPTWebBridgeStore.TouchCompanion` | dsh-chatgpt-web-bridge-plugin/index.js:319-329 | updates or appends the companion's row and selects it |
| `BridgeEvents.StepFeed` | dsh-chatgpt-web-bridge-plugin/index.js:176-243 | every report and contact keeps log, rows and selection in agreement with all events ever published |
| `BridgeEvents.RunFeed` | dsh-chatgpt-web-bridge-plugin/index.js:176-243 | in every run the log is the last 128 events numbered without gaps, every row says what the last event of its companion or observer was, and the selected observer is the one that reported last |
| `BridgeContacts.StepRows` | dsh-chatgpt-web-bridge-plugin/index.js:109-243 | every accepted or refused call keeps the rows in agreement with all contacts so far |
| `BridgeContacts.RunRows` | dsh-chatgpt-web-bridge-plugin/index.js:319-350 | in every run there is one row for exactly the companions and observers heard of, it says when each was last heard of and the last host and conversation it gave, and the selected companion is the one heard of last |
| `BridgeContacts.HostLookup` | dsh-chatgpt-web-bridge-plugin/index.js:269-279 | looking up a host gives the companion heard of last among those whose last host it is |
| `BridgeContacts.ConversationLookup` | dsh-chatgpt-web-bridge-plugin/index.js:291-300 | looking up a conversation gives the observer heard of last among those whose last conversation it is |
| `BridgeReports.PublishExactly` | dsh-chatgpt-web-bridge-plugin/index.js:176-200 | for every companion's report: accepted exactly with a good id, host, type, text and payload; then it is logged as the next event and its companion's row says so |
| `BridgeReports.PublishObserverExactly` | dsh-chatgpt-web-bridge-plugin/index.js:218-243 | the same for an observer's report, with the conversation and host of its payload |
| `BridgeReports.ContactExactly` | dsh-chatgpt-web-bridge-plugin/index.js:130-135 | a companion's contact is accepted exactly with a good id and host, and answers with its row, then the selected one |
| `BridgeReports.ObserverContactExactly` | dsh-chatgpt-web-bridge-plugin/index.js:202-216 | an observer's heartbeat answers with its row as it is then |
| `BridgeReports.ObserverStatusExactly` | dsh-chatgpt-web-bridge-plugin/index.js:281-289 | an observer is looked up by its own id |
| `BridgeReports.ShownIs` | dsh-chatgpt-web-bridge-plugin/index.js:245-300 | lookups see the rows heard of last, at most 32, most recent first |
| `BridgeReports.EmptyHostFindsNone` | dsh-chatgpt-web-bridge-plugin/index.js:276-279 | no companion is looked up for an empty host |
| `BridgeStore.ChatGPTWebBridgeStore.Publish` | dsh-chatgpt-web-bridge-plugin/index.js:176-200 | refuses a bad client, host, type, text or payload without change, else logs the next numbered event and touches the companion's row |
| `BridgeStore.ChatGPTWebBridgeStore.Heartbeat` | dsh-chatgpt-web-bridge-plugin/index.js:130-135 | refuses a bad client or host without change, else touches the companion's row |
| `BridgeStore.ChatGPTWebBridgeStore.LogEvent` | dsh-chatgpt-web-bridge-plugin/index.js:186-197 | appends to the log and drops the oldest events beyond 128 |
| `BridgeStore.ChatGPTWebBridgeStore.TouchObserver` | dsh-chatgpt-web-bridge-plugin/index.js:331-350 | updates or appends the observer's row, and selects it if asked to |
| `BridgeStore.ChatGPTWebBridgeStore.PublishObserver` | dsh-chatgpt-web-bridge-plugin/index.js:218-243 | refuses a bad observer id, type, text, payload, conversation or host without change, else logs the next numbered event, updates the observer's row and selects it |
| `BridgeStore.ChatGPTWebBridgeStore.ObserverHeartbeat` | dsh-chatgpt-web-bridge-plugin/index.js:202-216 | refuses a bad observer id, payload, conversation or host without change, else refreshes the row, keeping its last event, without selecting it |
| `CompanionProtocol.SystemStep` | src/dsh_mcp_gateway/chatgpt_web_companion.py:164-205 | every step of any number of companions over a lossy, repeating, delaying network keeps the send invariant |
| `CompanionProtocol.AtMostOnce` | src/dsh_mcp_gateway/chatgpt_web_companion.py:164-205 | each queued message is submitted at most once, with the text it was enqueued with |
| `CompanionProtocol.SubmittedExactlyOnGrant` | src/dsh_mcp_gateway/chatgpt_web_companion.py:164-184 | a step submits a message exactly when a companion still waiting to begin gets the permission, and then the message it asked for |
| `CompanionProtocol.GrantedExactly` | dsh-chatgpt-web-bridge-plugin/index.js:137-152 | for every request: permission to begin is granted exactly while the asking client, as trimmed, holds the claim, and a repeated request is refused |
| `CompanionProtocol.SubmittedStaysOut` | dsh-chatgpt-web-bridge-plugin/index.js:137-152 | a submitted message is never pending or claimed again |
| `CompanionReports.CompanionMoves` | src/dsh_mcp_gateway/chatgpt_web_companion.py:150-205 | for every step and companion: it starts idle, moves with its own events only, asks for what it was given, reports what its host answered, goes idle on any refusal or timeout, and keeps its client and host |
| `CompanionReports.ServeExactly` | dsh-chatgpt-web-bridge-plugin/index.js:109-174 | serving a request adds exactly one reply, a refusal exactly when the queue refuses, and changes no other request and no companion |
| `CompanionReports.ReportWasAnswered` | src/dsh_mcp_gateway/chatgpt_web_companion.py:152-184 | in every run, every report in the network is what the host of a companion answered on a message it had submitted |
| `CompanionReports.SettledWasAnswered` | src/dsh_mcp_gateway/chatgpt_web_companion.py:152-184 | in every run, a message that the queue says was sent or failed was submitted by a companion of the client recorded with it, and the host of that companion said so, no answer in time being a failure, whatever was lost, repeated or delayed in between |
| `TaskStoreProofs.AllocatedIsFree` | dsh-task-state-plugin/task-store.js:263-274 | an allocated id is an unused storage-safe candidate; the collision error means all eight were taken |
| `TaskStoreProofs.StepInv` | dsh-task-state-plugin/task-store.js:254-429 | creation, checks and updates in any interleaving keep records, history and waiting callers consistent |
| `TaskStoreProofs.OneWinnerPerRevision` | dsh-task-state-plugin/task-store.js:339-429 | at most one mutation per task and expected revision takes effect |
| `TaskStoreProofs.WritesAreAtomic` | dsh-task-state-plugin/task-store.js:339-429 | a mutation overwrites exactly the record its caller had checked; revision rises by one, updatedAt strictly |
| `TaskStoreProofs.RevisionsCountWrites` | dsh-task-state-plugin/task-store.js:339-429 | the stored record is what the last write left and its revision counts the writes |
| `TaskStoreProofs.FinishExactly` | dsh-task-state-plugin/task-store.js:352-428 | an update is refused exactly when the task changed since the check or no time stamp is left |
| `TaskStoreProofs.CheckpointsAreLastTwenty` | dsh-task-state-plugin/task-store.js:378-393 | stored checkpoints are the last 20 of the full history with strictly rising revisions |
| `TaskStoreProofs.CompletedForever` | dsh-task-state-plugin/task-store.js:397-428 | completed status and completedAt never change again |
| `TaskStoreProofs.StoredIsReadable` | dsh-task-state-plugin/task-store.js:63-117 | the reader accepts a stored record unchanged exactly when its id has at most 128 characters and its revision is a safe integer |
| `TaskStoreProofs.LastRevision` | dsh-task-state-plugin/task-store.js:163-168 | a write expecting revision 2^53-1 takes effect, cannot be read back, and shuts the task for good |
| `TaskOutcomes.CreateExactly` | dsh-task-state-plugin/task-store.js:254-295 | succeeds exactly with a title, acceptable arguments, a usable candidate and a time in range; stores what was given under the first usable candidate; otherwise says what was wrong, changing nothing |
| `TaskOutcomes.AllocateExactly` | dsh-task-state-plugin/task-store.js:263-274 | the first of the eight candidates that is free, or the first thing wrong with those before it |
| `TaskOutcomes.PrecheckExactly` | dsh-task-state-plugin/task-store.js:339-353 | for every call, its answer on arrival: refused for the first thing wrong, already done, or on to the write |
| `TaskOutcomes.FinishSays` | dsh-task-state-plugin/task-store.js:354-362 | the answer of the second step is the record that is then stored; a refused one changes nothing, and no other record changes |
| `TaskOutcomes.EveryWriteSays` | dsh-task-state-plugin/task-store.js:339-428 | in every run, for every write: each of the seven fields is the given value where one was given and the old one otherwise; a checkpoint sets summary, next steps, references and a given plan and nothing else; a transition only status and completion; stamped with the time of the step that wrote |
| `TaskOutcomes.EveryBirthSays` | dsh-task-state-plugin/task-store.js:254-295 | in every run every task on record was created by one call and was born with exactly what that call gave |
| `TaskOutcomes.ReaderExactly` | dsh-task-state-plugin/task-store.js:63-117 | the reader returns a well-formed record as it is and rejects any other |
| `TaskOutcomes.SafeIdIs` | dsh-task-state-plugin/task-store.js:155-161 | a task id is the prefix and at least one letter, digit, underscore or dash |
| `TaskOutcomes.RequestOkIs` | dsh-task-state-plugin/task-store.js:121-168 | a call names a task and its revision and says something acceptable |
| `TaskStore.Store.Timestamp` | dsh-task-state-plugin/task-store.js:232-235 | the next stamp is at least now and strictly after the previous one |
| `TaskStore.Store.AllocateId` | dsh-task-state-plugin/task-store.js:263-274 | the eight-attempt loop returns an unused storage-safe id or the model's error |
| `TaskStore.Store.CreateTask` | dsh-task-state-plugin/task-store.js:254-295 | inserts one active task of revision 1 under an allocated id, or refuses without change |
| `TaskStore.Store.Check` | dsh-task-state-plugin/task-store.js:352-353 | the first step: refuses bad requests, missing tasks, stale revisions and illegal transitions, short-cuts a transition already made |
| `TaskStore.Store.Write` | dsh-task-state-plugin/task-store.js:354-362 | the atomic second step: checks revision and transition again and replaces the record, or changes nothing |
| `TaskStore.Store.ApplyPatch` | dsh-task-state-plugin/task-store.js:342-349 | replaces exactly the given fields |
| `ContinuationProofs.EventEffect` | dsh-chatgpt-web-bridge-plugin/continuation-controller.js:192-292 | an event sends one message exactly when every condition holds; an accepted completed turn of a new key that does not send stops |
| `ContinuationProofs.StepInv` | dsh-chatgpt-web-bridge-plugin/continuation-controller.js:110-292 | controller, queue, contacts and task store together keep the progress invariant |
| `ContinuationProofs.PaidForByProgress` | dsh-chatgpt-web-bridge-plugin/continuation-controller.js:265-291 | in every run the count is at most the cap, at most the writes of the bound task since arming, and counts the messages sent |
| `ContinuationProofs.OneAutomaticMessage` | dsh-chatgpt-web-bridge-plugin/continuation-controller.js:256-257 | at most one automatic message is active in any state |
| `ContinuationProofs.EveryTurnSettles` | dsh-chatgpt-web-bridge-plugin/continuation-controller.js:239-291 | an accepted completion of a new turn raises the count by one or stops, and raises it exactly under the stated conditions |
| `ContinuationProofs.NothingAfterStop` | dsh-chatgpt-web-bridge-plugin/continuation-controller.js:183-193 | while stopped nothing is sent until the controller is armed again |
| `ContinuationOutcomes.AdmitExactly` | dsh-chatgpt-web-bridge-plugin/continuation-controller.js:193-234 | which events count, and what a takeover by another observer of the conversation changes: exactly on the bound host, in good health, with the bound observer not well or missing this turn |
| `ContinuationOutcomes.EventExactly` | dsh-chatgpt-web-bridge-plugin/continuation-controller.js:192-292 | for every event, without the function that admits it: ignored, taken over with, stopped for which reason, continued, and what is recorded |
| `ContinuationOutcomes.StopsExactly` | dsh-chatgpt-web-bridge-plugin/continuation-controller.js:192-292 | an enabled controller is stopped by an event exactly if the bound observer reports another conversation, or a counted event is a fault, or completes a turn without a key, or a new turn is blocked, with the reason of each |
| `ContinuationOutcomes.TurnExactly` | dsh-chatgpt-web-bridge-plugin/continuation-controller.js:236-292 | a new turn stops for the first thing that blocks it, or else is continued |
| `ContinuationOutcomes.MessagesExactly` | dsh-chatgpt-web-bridge-plugin/continuation-controller.js:250-291 | a continued turn leaves one more active message, addressed to the bound host and naming task, count and cap; any other event leaves the messages, but for leases that ran out |
| `ContinuationOutcomes.ArmExactly` | dsh-chatgpt-web-bridge-plugin/continuation-controller.js:110-181 | disabling stops; arming fails with the first thing that is wrong, changing nothing, or else binds exactly what was found; with start it also sends the seed |
| `ContinuationOutcomes.ReadTaskIs` | dsh-chatgpt-web-bridge-plugin/continuation-controller.js:121-126 | the task is read exactly if it is on record and its id has at most 128 characters |
| `ContinuationController.Controller.StopWith` | dsh-chatgpt-web-bridge-plugin/continuation-controller.js:183-190 | disables with the reason and time and keeps every other field |
| `ContinuationController.Controller.Healthy` | dsh-chatgpt-web-bridge-plugin/continuation-controller.js:100-108 | releases old claims and reports companion and observer health |
| `ContinuationController.Controller.CheckArming` | dsh-chatgpt-web-bridge-plugin/continuation-controller.js:119-152 | finds the first failing arming check, or the observer, host and revision to bind |
| `ContinuationController.Controller.ConfigureWith` | dsh-chatgpt-web-bridge-plugin/continuation-controller.js:110-181 | disabling stops; arming either fails with its first error or binds task, observer and host, and with start enqueues one seed |
| `ContinuationController.Controller.AdmitEvent` | dsh-chatgpt-web-bridge-plugin/continuation-controller.js:193-234 | ignores, stops or accepts an event, rebinding the observer as the model says |
| `ContinuationController.Controller.ContinueTurn` | dsh-chatgpt-web-bridge-plugin/continuation-controller.js:250-291 | stops at the first obstacle in the order of the checks, else enqueues one continuation and raises the count |
| `ContinuationController.Controller.OnObserverEvent` | dsh-chatgpt-web-bridge-plugin/continuation-controller.js:192-292 | admission, fault events, missing and duplicate turn keys, then the decision on the turn |
| `CapabilityProofs.StepInv` | dsh-bridge-plugin/index.js:274-436 | every step between two suspension points keeps the accounting |
| `CapabilityProofs.LeaseAccounting` | dsh-bridge-plugin/index.js:274-436 | leases equal acquirers in flight plus unreleased capabilities; disposal starts at most once and only without leases; nothing stale and unused stays undisposed |
| `CapabilityProofs.NoHelperLost` | dsh-bridge-plugin/index.js:322-383 | the handle map holds exactly the helpers that are not abandoned, disposed or failed |
| `CapabilityProofs.ReleasedOnce` | dsh-bridge-plugin/index.js:597-627 | every successful acquisition is released at most once, and until then the next step to its release is possible, also after the request gave up |
| `CapabilityProofs.VerifiedIsCurrent` | dsh-bridge-plugin/index.js:409-411 | after verification the caller's helper is the one entry in the map that is not stale |
| `CapabilityOutcomes.StepEntry` | dsh-bridge-plugin/index.js:274-436 | for every step and helper: exactly when it becomes out of date or current again, is abandoned, starts or ends its disposal, and how its creation ends |
| `CapabilityOutcomes.NewEntrySays` | dsh-bridge-plugin/index.js:322-383 | a new helper starts current, being created, for the session that asked |
| `CapabilityOutcomes.StepCaller` | dsh-bridge-plugin/index.js:322-436 | for every step and caller: exactly where it is afterwards and which helper it holds |
| `CapabilityOutcomes.NewCaller` | dsh-bridge-plugin/index.js:322-330 | a call starts by looking its session up, holding nothing |
| `CapabilityOutcomes.RunDisposal` | dsh-bridge-plugin/index.js:274-302 | in every run a helper is being disposed of, or was abandoned, exactly when it is out of date and nobody holds it |
| `CapabilityOutcomes.OutdatedIsRetired` | dsh-bridge-plugin/index.js:391-435 | in every run, a helper whose caller found it out of date or failed on it is out of date at once, and if nobody else holds it its disposal has started or it was abandoned |
| `CapabilityOutcomes.OutdatedUntilRenewed` | dsh-bridge-plugin/index.js:391-435 | and it stays out of date until a caller that holds it verifies it as current |
| `CapabilityRegistry.Registry.ForceDisposeEntry` | dsh-bridge-plugin/index.js:274-289 | starts disposal once |
| `CapabilityRegistry.Registry.MaybeDisposeEntry` | dsh-bridge-plugin/index.js:291-294 | starts disposal exactly of a stale entry without leases |
| `CapabilityRegistry.Registry.RetireOtherEntries` | dsh-bridge-plugin/index.js:296-302 | the loop marks every other entry stale and starts the disposals that are due |
| `CapabilityRegistry.Registry.Enter` | dsh-bridge-plugin/index.js:322-385 | waits for an entry being disposed of, else joins the entry or creates one, with one more lease |
| `CapabilityRegistry.Registry.FindOutdated` | dsh-bridge-plugin/index.js:391-408 | gives the lease back, marks the entry stale, disposes if it was the last, and starts over |
| `CapabilityRegistry.Registry.FindVerified` | dsh-bridge-plugin/index.js:409-424 | marks the entry fresh, retires all others in the map, and hands the capability out |
| `CapabilityRegistry.Registry.Fail` | dsh-bridge-plugin/index.js:425-435 | gives the lease back and marks the entry stale; the aborted last caller takes it out of the map, otherwise disposal is due at zero leases |
| `CapabilityRegistry.Registry.ReleaseCapability` | dsh-bridge-plugin/index.js:415-423 | gives the lease back once and starts a disposal that is due |
| `CapabilityRegistry.Registry.SettleDisposal` | dsh-bridge-plugin/index.js:276-287 | a finished disposal takes the entry out of the map and resumes its waiters |
| `CapabilityRegistry.Registry.SettleNow` | dsh-bridge-plugin/index.js:276-287 | the waiters resuming one by one end where the batch of the model does |
| `CapabilityRegistry.Registry.FailCreation` | dsh-bridge-plugin/index.js:378-382 | takes the failed entry out of the map and settles a disposal that was waiting for it |
| `JoinCommand.LexEscaped` | dsh-remote-worker-plugin/controller.js:553-555 | inside single quotes the escaped form of any NUL-free text reads back as that text |
| `JoinCommand.LexRendered` | dsh-remote-worker-plugin/controller.js:249-253 | a line rendered from plain words, quoted values and pipes reads back as exactly those tokens |
| `JoinCommand.RunScript` | src/dsh_mcp_gateway/remote_worker_edge.py:37-55 | the argument loop computes the same outcome as the recursive reading of its arguments |
| `JoinCommand.ArgLoopReads` | src/dsh_mcp_gateway/remote_worker_edge.py:37-55 | on the rendered arguments the script gets exactly the invite, name, workdir and persist flag |
| `JoinCommand.JoinRoundTrip` | dsh-remote-worker-plugin/controller.js:249-263 | running the rendered command hands the script exactly what it was made from, quotes, blanks and newlines included |
| `JoinCommand.JoinRoundTripExactly` | dsh-remote-worker-plugin/controller.js:249-263 | for valid names the round trip succeeds exactly when the workdir has no NUL |
| `JoinCommand.CommandText` | dsh-remote-worker-plugin/controller.js:252-263 | the persistent command is the plain one with one more word |
| `Utf8.RoundTrip` | src/dsh_mcp_gateway/remote_worker_agent.py:325-326 | decoding gives back every encoded text |
| `Utf8.DecodePrefix` | src/dsh_mcp_gateway/remote_worker_agent.py:325-326 | the first k bytes decode to the characters wholly within them, and one replacement character exactly if byte k is not between characters |
| `Utf8.FirstExactly` | src/dsh_mcp_gateway/remote_worker_agent.py:325-326 | the first decoded character is c exactly if the bytes begin with the encoding of c, and a replacement if they begin with no encoding |
| `Utf8.SubpartExactly` | src/dsh_mcp_gateway/remote_worker_agent.py:325-326 | one replacement stands for exactly as many bytes as still begin some character, and for one byte if the first begins none |
| `Utf8.FourBytesEach` | src/dsh_mcp_gateway/remote_worker_agent.py:286-286 | no decoded character stands for more than four bytes |
| `OutputBudget.CaptureOutput` | src/dsh_mcp_gateway/remote_worker_agent.py:285-316 | the reading loop keeps beginnings of both outputs that together fill the budget, as long as the order of reads leaves each, and reports exactly whether bytes were dropped |
| `OutputBudget.RunShell` | src/dsh_mcp_gateway/remote_worker_agent.py:285-339 | truncated exactly when the decoded outputs exceed the limit, then exactly the limit is returned, else everything; the two texts exactly, and when each is a true beginning |
| `OutputBudget.ExactBudget` | src/dsh_mcp_gateway/remote_worker_agent.py:285-332 | the same for all byte streams and all captures: the byte budget never truncates on its own |
| `OutputBudget.ExactBudgetForText` | src/dsh_mcp_gateway/remote_worker_agent.py:285-332 | for valid UTF-8, in terms of the characters written |
| `OutputBudget.CutCharacterIsReturned` | src/dsh_mcp_gateway/remote_worker_agent.py:325-332 | a character cut by the byte budget can be returned as a replacement character |
| `OutputBudget.TrueBeginningExactly` | src/dsh_mcp_gateway/remote_worker_agent.py:325-332 | for all bytes, cuts and limits: the text shown is a beginning of the decoded output exactly if the cut is between characters, or the cut character is clipped away, or it was a replacement character itself |
| `OutputBudget.BothTrueExactly` | src/dsh_mcp_gateway/remote_worker_agent.py:285-332 | the same for both streams as captured, with the texts returned |
| `OutputBudget.OneStreamIsTrue` | src/dsh_mcp_gateway/remote_worker_agent.py:286-332 | if one stream gets the whole budget its text is always a true beginning: a cut character is always clipped away |
| `OutputBudget.SilentStream` | src/dsh_mcp_gateway/remote_worker_agent.py:285-332 | so a command that is silent on one stream always gets back a true beginning of the other |
| `OutputBudget.TextIsTrueExactly` | src/dsh_mcp_gateway/remote_worker_agent.py:285-332 | the exact condition for valid UTF-8, in terms of the characters written |

## Left out

- RemoteWorkerController.Controller.Create: of parsing a stored record the name is checked here and the workdir, capabilities and info in `RemoteWorkerRecords`; its exact set of keys, digest syntax and creation time are not modelled.
- RemoteWorkerController.Controller.CreateInvite: the returned command is the subject of `JoinCommand`; the other response fields repeat the arguments; rounding of the default lifetime is not modelled.
- RemoteWorkerController.Controller.Register: the writes to the storage table inside register, resume, rename and revoke are atomic, because the table is not part of this model; creation times are left out; a name is trimmed here, and calls that take the name of an existing machine are modelled on the trimmed name.
- CapabilityProofs.ReleasedOnce: states that a release is always possible and happens at most once; that it eventually happens depends on scheduling and on the helper's own code.
- CompanionProtocol.AtMostOnce: the companion script is a state machine over its suspension points instead of an object, because its steps interleave with an unreliable network; a submission whose acknowledgement is lost stays in dispatching for good, which the design accepts.
- CapabilityRegistry.Registry.SettleNow: callers waiting for one disposal resume as one batch, following the order of JavaScript microtasks.
- Randomness and hashing: fresh codes, tokens, ids and grant ids are parameters that are assumed new; token digests are identified with tokens; PKCE verification is not part of this model.
- Clocks: every call takes its time as a parameter; in the bridge and continuation controller one call reads the clock once; the OAuth and limiter results need a non-decreasing clock; times are real or integer numbers without rounding.
- Storage: SQLite files, schema migration and the key-value storage domain are plain maps; a transaction or table update is one atomic step.
- `save_client` and `save_pending`: uncapped helpers the provider never calls; with them the caps would not hold.
- OAuth provider: HTTP routes other than the approval page, redirect URIs, client metadata limits and how a PIN is compared; token loads that re-check issuer and resource after a change of configuration.
- Task store: listing and searching, projections of records, and parsing of values of the wrong type.
- Message bridge: fields of event payloads other than the conversation and host, the size limit of request bodies, and the texts of the automatic messages, which are represented by their task id, index and cap and are short enough to pass the length check.
- Continuation controller: contact tables may change in any way between calls in the run theorems, which covers every order of heartbeats and events.
- Capability agents: plugin teardown, session ids and preset stamps; looking up a session, verification and creation may end in any way.
- Join script: downloading and checking the worker, and everything after its arguments are read; of the shell only the quoting and words that occur in the command.
- Command execution in the agent: process control, deadlines and cancellation around the reading loop; reads arrive in any order and size.
- Browser session manager, tool and skill catalogues, HTTP and MCP wiring, deployment scripts: input and output, or one-branch checks.
