# Release publication, verified

A Dafny model of a release publisher for nginx configuration and static sites, of the batch
client that drives it on several nodes, and of the snapshot store underneath. The model
follows the code; every operation is a method over the state that the code assigns, proved
against contracts that say what it leaves behind wherever it stops.

| file | models |
|---|---|
| `Release.dfy`, `State.dfy` | requests, results, records, the durable state of one target, and the assignments made to it between two saves |
| `Protocol.dfy` | what a target's durable world (saved state, `latest` link, ghost history) must look like at every instant, and what one step may change |
| `Transitions.dfy` | every assignment keeps that invariant |
| `Outcomes.dfy` | admission of requests, replies, and the recoverable states that an interruption can expose |
| `Publisher.dfy` | class `Node`: apply, stage, nginx test, nginx reload, abort, rollback, startup recovery |
| `Runs.dfy` | what holds between any two instants of any run |
| `Journeys.dfy` | crashes anywhere, command sequences, competing clients |
| `Batch.dfy` | class `Client`: the durable batch file, resume, and reverse-order restore, over `Node` objects and a network that loses, delays and repeats requests |
| `Snapshots.dfy` | class `Directory`: prepare, verify, install, sweep, probe |
| `Counterexamples.dfy` | runs and inputs at which the code does less than one might expect, next to the exact conditions |
| `Fleet.dfy` | class `Runner`: registration of directories and uniqueness of release ids over many targets |

## How failure is modelled

A `Node` performs atomic actions: save, switch of `latest`, `nginx -t`, reload, check, probe.
The environment picks each outcome. A save or a switch may report an error after its rename,
so an error leaves the old or the new value. A power cut may accompany any action; after it
`up` is false and no later action of that operation has an effect, so each contract also
describes every crash point of the operation. The ghost field `hist` holds the world after
every action; `Valid()` says that `hist` is a `Run`, so the lemmas of `Runs.dfy` hold for every
reachable history.
Ghost fields carry hypotheses: `trouble` counts the actions that the environment refused, power
cuts included, and the saves among them; `past.clean` says that no save failed, and no release
that needed recovery was taken over or retried; `past.overwritten` says that a record with a
switch intent was replaced by a retry under its own id, or that the directory already had a link
when it was registered. The client's ghost field `upset` counts what the environment does against it:
failed saves, lost requests and replies, nodes that refuse an action or are used by others meanwhile,
and a clock that runs out; "nothing stands in the way" means that it has not grown. Revisions are
fresh UUIDs; the model names them by the order in which they were drawn and compares them only for
equality in code.

## Main results

* All or nothing: `Journeys.CrashAnywhere`. One apply or stage on an idle target, interrupted
  anywhere, its recovery interrupted anywhere and any number of times, ends after the first
  undisturbed startup exactly as before or exactly switched.
* Recovery in spite of a broken candidate: `Publisher.Node.RecoverSwitched`, `Publisher.Node.Restart`.
* Progress of the batch: `Batch.Client.UpdateBatch` succeeds, and `Batch.Client.RestoreBatch` restores, whenever the
  nodes are ready for it and nothing stands in the way; a failed update restores exactly if the policy asks for it.
* What is asked for is what is installed: commit, version and digest of the current version and of its record
  (`Publisher.Node.Apply`, `Batch.Client.UpdatedMeansEverywhere`), and the files of its snapshot
  (`Snapshots.Directory.PrepareSnapshot`).
* Batch undo, client and server together: `Batch.Client.RestoredMeansPutBack` for every node whose entry
  is not doubtful, `Batch.Client.RestoredMeansRestored` for every stored success.
* Every move of a target belongs to one release, was made with `latest` on the new version, and is
  missing from the history of a release that reports none: `Runs.MoveHasOwner`, `Runs.DrawnInstant`,
  `Runs.NotMovedBefore`.
* Fixed request per UUID, durable-first sending, reverse-order undo: `Batch.Client.FixedBody`,
  `Batch.Client.DurableFirst`, `Batch.Client.ReverseOrder`.
* Write-ahead link invariant: `Runs.LinkAlwaysExplained`. It fails if a release that needed recovery
  is retried under its own id; `Counterexamples.RetryCanLoseLink` is the run and `Runs.RetryKeepsLink`
  the exact condition.
* No A-B-A: `Runs.NoABA`, `Runs.ExpectedRevisionGuards`. Of all releases at most one takes the target off a
  given revision, commands and startups included: `Runs.OneLeaves`, `Journeys.Race`. A release may still make
  its first move later, off another revision; `Runs.SecondMover`, `Journeys.CommandMovesSecond` and
  `Journeys.StartupMovesSecond` say exactly when.
* Reload never untested: `Runs.ReloadedWhereTested`. Honest skips: `Publisher.Node.Apply`,
  `Counterexamples.PromiseOfASkip`. Exact undo, also after one refused command: `Publisher.Node.Apply`,
  `Journeys.StageThenCommands`; commands that are cut short: `Journeys.CommandThenStartup`; how far commands
  reach: `Journeys.CommandReaches`. Two rollbacks are the identity: `Journeys.RollBackTwice`.
* Idempotence: `Publisher.Node.Apply`, `Runs.AcceptedOnce`, `Runs.LetInOnce`, `Runs.RecordsLast`,
  `Journeys.CompleteStays`, `Journeys.CompleteUntilRequest`, `Journeys.CompleteUntilStartup`.
* Snapshots: `Snapshots.Directory.PrepareThenVerify`, `Snapshots.Directory.CleanupSnapshots`,
  `Snapshots.Directory.CleanupThenProbe`, `Snapshots.Directory.CleanupThenRestore`, `Snapshots.RestoreTargetReferenced`.
* Registration: `Fleet.WithinIsPrefix`, `Fleet.Runner.Register`, `Fleet.Runner.Load`.

## Where the code falls short

Each of these is kept as it is in the code, except the last, which the model shuts out. Unless another
module is named, `Counterexamples.dfy` has the input, as a run that starts with an empty directory.

* A restored batch can leave `latest` on the update (`RestoreForgets`, five ways). In four of them the entry
  in the batch file shows it (`Batch.Doubtful`): an nginx command was refused and the refusal replaced the
  stored success; a repeated post was refused while the first one went through; another client superseded
  the release; or the save of the commit reported an error, after which `execute_node` takes the result for
  final. In the fifth nothing shows it: after a failed local rollback a late post of the same body is let in
  and fails before its switch, and its record replaces the one that knew of the switch. What holds of every
  entry that is not doubtful is `Batch.Client.RestoredMeansPutBack`: the version of preflight was current
  again, or the update has never moved the stored pair -- and then it has not touched `latest` either, exactly if no
  attempt came into doubt after announcing its switch (`Runs.NotAnnouncedBefore`).
* A skip need not mean that the commit was ever reloaded, as docs/jenkins.md:29 says it does
  (`SkipWithoutReload`). The durable state guarantees it exactly if some record reached phase `complete` with
  a switch to the current commit, or was rolled back to it (`PromiseOfASkip`).
* A retry of a release that needed recovery can leave `latest` unaccounted for (`RetryCanLoseLink`);
  `Runs.RetryKeepsLink` has the condition.
* A snapshot of another source is replaced exactly if it is nested, which a freshly made one is exactly if
  its site holds a file under a directory of the server's own name (`Snapshots.Directory.PrepareTwice`).
* A result reported with phase `complete` can change later (`CompleteResultChanges`). It cannot unless its
  status is `recovery_required` (`Journeys.CompleteStays`); if it is, the next request changes it exactly if it
  is let in and either retries the release or finds it active (`Journeys.CompleteUntilRequest`), and a startup
  exactly if it finds it active (`Journeys.CompleteUntilStartup`).
* A staged command that is cut short can leave `latest` and the current version out of step for good
  (`AbortCutShort`); an undisturbed startup mends that exactly if a switched release was marked active
  (`Journeys.CommandThenStartup`).
* A command finds its release by commit and source, whatever its status. An abort, or a failing test or reload,
  can take the target back past later releases (`AbortGoesBack`), and a reload can install its own pair over
  them: exactly if the release's revision is not the target's any more (`Journeys.CommandReaches`).
* So updates can be lost in spite of expected revisions. A release whose local rollback was refused leaves the
  revision as it was; a second one with the same expected revision is let in, supersedes it and moves the target;
  then the first is tested after all, and its reload or abort overrides the second (`SecondMoverRun`). A command
  or startup that moves the target does that exactly if its release has not moved yet and the
  target is not on the release's starting revision any more (`Journeys.CommandMovesSecond`,
  `Journeys.StartupMovesSecond`); requests never do (`Journeys.Race`).
* A command that cannot open the target's directory marks its release for recovery before it has looked
  whether it is still current. For a release that is not, the next startup would roll the target back
  past everything since (`StaleCommand`); exactly for such releases the mark breaks the invariant, and exactly
  for settled ones it changes a settled record (`UnopenedCommand`). In the rest of the model directories open.

## Model

| member | source | states |
|---|---|---|
| Publisher.Node.constructor | internal/application/publisher/runner.go:262-315 | a newly registered target has no version, no record, and needs recovery if its directory was not empty |
| Publisher.Node.Save | internal/infrastructure/state/store.go:129-153 | a save leaves the old or the new state; success means the new state is durable; a process that is gone changes nothing |
| Publisher.Node.Switch | internal/infrastructure/fsutil/fs.go:161-190 | the link ends on its old or its new target, and on the new one after success |
| Publisher.Node.Test | internal/application/publisher/runner.go:791-798 | a successful nginx -t is logged with the link it was issued on |
| Publisher.Node.ReloadNginx | internal/application/publisher/runner.go:800-807 | callable only where nginx -t has passed on the same link |
| Publisher.Node.Uncertain | internal/application/publisher/runner.go:1065-1085 | the durable state is the old one or the marked one, and the caller is told recovery_required |
| Publisher.Node.Fail | internal/application/publisher/runner.go:1052-1064 | an answer "failed" means that the failed record is durable and no mark is left, with the code and the time of the failure |
| Publisher.Node.CommitGitStage | internal/application/publisher/runner.go:836-855 | candidate over baseline under a never-used revision, or an uncertain state; success only if durable |
| Publisher.Node.Commit | internal/application/publisher/runner.go:1086-1121 | the same with a completed record; only after a logged reload on the candidate |
| Publisher.Node.RestoreLocal | internal/application/publisher/runner.go:1148-1167 | success means check, switch, test, reload and verification of the baseline happened in this order; failure leaves the link on one of two ends |
| Publisher.Node.RecordRestored | internal/application/publisher/runner.go:1135-1146 | the accept-time pair is back under a fresh revision, or the state is uncertain |
| Publisher.Node.Restore | internal/application/publisher/runner.go:1122-1147 | "failed" means pair, link and history of a complete local rollback; otherwise the release still waits for recovery |
| Publisher.Node.Admit | internal/application/publisher/runner.go:509-556 | a request goes on exactly if the locks are free, the state can be read, the node is not blocked, and the request is admissible; each refusal names the test that failed; a node that refuses nothing gives exactly the refusal or the replay that the request, the records and the revision call for |
| Publisher.Node.Enroll | internal/application/publisher/runner.go:557-569 | takeover and the new record start a release that has switched nothing, whichever way the save went |
| Publisher.Node.VerifyBaseline | internal/application/publisher/runner.go:573-595 | the rollback target is the stored current version; a failure leaves the target unswitched and unmarked |
| Publisher.Node.FindPending | internal/application/publisher/runner.go:605-612 | finds a switched release of this version whose nginx commands are outstanding, if there is one |
| Publisher.Node.TrySkip | internal/application/publisher/runner.go:596-624 | done exactly when commit, source, link and files agree; in a skip without failed saves the current pair was installed after a reload on its link |
| Publisher.Node.FetchStep | internal/application/publisher/runner.go:631-669 | a resolved artifact digest is in the record before anything is pulled by it |
| Publisher.Node.PrepareFetched | internal/application/publisher/runner.go:670-677 | the candidate is of the requested commit and version; for a frontend it is of the digest that the request names or the registry resolved, which is the one the record reports |
| Publisher.Node.PrepareRestore | internal/application/publisher/runner.go:625-630 | the candidate is the retained baseline with the requested version name |
| Publisher.Node.VerifyCandidate | internal/application/publisher/runner.go:681-693 | it goes on only after a fresh successful check of the candidate's files |
| Publisher.Node.RecordIntent | internal/application/publisher/runner.go:694-701 | the switch is announced durably before it happens; every outcome is recoverable |
| Publisher.Node.SwitchLink | internal/application/publisher/runner.go:702-710 | on success the link is on the candidate; otherwise the release went back or is recoverable |
| Publisher.Node.TestStep | internal/application/publisher/runner.go:714-719 | a failing test inside apply puts pair and link back, and leaves the release in doubt only if the restore or a save was refused as well |
| Publisher.Node.ReloadStep | internal/application/publisher/runner.go:720-725 | a failing reload inside apply puts pair and link back, and leaves the release in doubt only if the restore or a save was refused as well |
| Publisher.Node.VerifyStep | internal/application/publisher/runner.go:726-736 | a failing verification inside apply puts pair and link back, and leaves the release in doubt only if the restore or a save was refused as well |
| Publisher.Node.Apply | internal/application/publisher/runner.go:477-738 | refused or replayed requests leave no trace; success, skip and failure each fix pair, link, revision and event order; every crash point is recoverable; of all other records only the active unfinished one changes, to superseded; an answer recovery_required means a refused save, or a refused restore after another refusal; refused nothing, it skips or replays exactly if commit, source and link are current; a success leaves a current version of the very digest that its record reports; an end bears the time of the call, and a failure the code of a step that failed |
| Publisher.Node.FindUndoable | internal/application/publisher/runner.go:435-447 | finds the record that made the current revision, if there is one |
| Publisher.Node.RollbackCurrent | internal/application/publisher/runner.go:417-464 | refused only for want of a record, a lock, a readable state or an unblocked node; success exchanges current and previous, whole versions included |
| Publisher.Node.OpenCommand | internal/application/publisher/runner.go:879-953 | a command goes on only for the release whose commit and source are current and linked |
| Publisher.Node.Abort | internal/application/publisher/runner.go:956-961 | only before reload; success restores the accept-time pair and link under a fresh revision; a node that refuses nothing answers every other case with the one refusal that fits |
| Publisher.Node.NginxTest | internal/application/publisher/runner.go:962-985 | success records exactly one passed test on the current link; a failing test undoes the release unless the restore or a save is refused too; a replay changes nothing; a crash leaves pair and link on its ends; so does a repeated test, which gets the same answer; every other case has its refusal |
| Publisher.Node.NginxReload | internal/application/publisher/runner.go:986-1007 | only after a passed test; success reloads, verifies and completes in this order; a failing reload undoes the release unless the restore or a save is refused too; a replay changes nothing; a crash leaves pair and link on its ends; a completed release is answered again; every other case has its refusal |
| Publisher.Node.Query | internal/application/publisher/runner.go:318-363 | reports stored revision, versions and record, or that there is no such release, unless it is refused the state; changes nothing durable |
| Publisher.Node.RecoverUnswitched | internal/application/publisher/runner.go:1174-1185 | an interrupted release without an intent ends as failed with pair, revision and link unchanged, with code "interrupted" |
| Publisher.Node.RecoverSwitched | internal/application/publisher/runner.go:1190-1228 | forward if the link is on the candidate and every step of its activation succeeds, back otherwise; completed only after check, test, reload and verification, in this order; if one action, which is no save, is refused after the activation has begun, the release still ends: forward or, as failed and rolled back, with the accept-time pair and link; every failure stays recoverable |
| Publisher.Node.RecoverLinked | internal/application/publisher/runner.go:1204-1228 | the part with the link on the candidate: an activation that fails is rolled back at once, and that settles the release if nothing else is refused |
| Publisher.Node.Recheck | internal/application/publisher/runner.go:96-104 | only the recovery flag moves; once saved it is set exactly if the check failed, and cleared only after a check of the stored current version; a refused save blocks the node |
| Publisher.Node.Restart | internal/application/publisher/runner.go:49-119 | a startup keeps every recoverable state recoverable, touches no completed record, and if undisturbed settles the target in the stated direction with the stated nginx actions; one refused activation still settles it, on the old version |
| Transitions.AcceptedKeeps | internal/application/publisher/runner.go:369-381 | takeover and the new record keep the invariant; the ghost flags fall exactly for a takeover or retry of a release that needs recovery |
| Transitions.TakeoverEndsOne | internal/application/publisher/runner.go:369-381 | a new request ends exactly the unfinished release that was active, as superseded, and touches no other record |
| Transitions.MovedKeeps | internal/application/publisher/runner.go:836-841 | any move of the current version between the ends of an announced release, under a fresh revision, keeps the invariant |
| Transitions.RecordChanged | internal/application/publisher/runner.go:754-758 | any change of one record that keeps its request, baseline and intent keeps the invariant |
| Transitions.StagedKeeps | internal/application/publisher/runner.go:836-855 | staging keeps the invariant and explains at least the links explained before |
| Transitions.CommittedKeeps | internal/application/publisher/runner.go:1086-1107 | committing keeps the invariant, given a reload on the candidate |
| Transitions.RolledBackKeeps | internal/application/publisher/runner.go:1135-1146 | a rollback keeps the invariant, given a reload on the baseline |
| Transitions.ReloadedWhenNotPending | internal/application/publisher/runner.go:604-621 | without failed saves, a current version that waits for no nginx command was installed after a reload on its link |
| Outcomes.RollbackAdmitted | internal/application/publisher/runner.go:435-463 | the request that RollbackCurrent builds passes every test of apply, digest included, and names the whole stored previous version, though the search compares commits only |
| Outcomes.RollbackOffered | internal/application/publisher/runner.go:435-447 | a rollback is on offer exactly if there is a current and a previous version and a complete release that reports the current revision |
| Outcomes.InterruptedRolledBack | internal/application/publisher/runner.go:1135-1146 | rolling an interrupted release back, saved or not, leaves it undone or recoverable |
| Outcomes.InterruptedCommitted | internal/application/publisher/runner.go:1086-1107 | finishing an interrupted release, saved or not, leaves it done or recoverable |
| Runs.NoABA | internal/application/publisher/runner.go:836-839 | while a revision lasts no other pair is installed, and a changed pair has a revision that no earlier instant saw |
| Runs.ExpectedRevisionGuards | internal/application/publisher/runner.go:542-544 | a request that carries a read revision is admitted only if the pair it was read with stood at every instant since |
| Runs.RecordsLast | internal/application/publisher/runner.go:396-398 | a record is never lost and keeps the fingerprint it was made for, retries included |
| Runs.AcceptedOnce | internal/application/publisher/runner.go:382-405 | a release that never needed recovery keeps one request, one baseline, one starting revision and one announced candidate |
| Runs.BaselineIsWhatWasRead | internal/application/publisher/runner.go:560-561 | the rollback target of a release is the pair the client read together with the revision it sent |
| Runs.CompletedWasCurrent | internal/application/publisher/runner.go:1086-1107 | a completed release was the stored pair at some instant, under the revision it reports |
| Runs.LetInOnce | internal/application/publisher/runner.go:382-405 | a release that never needed recovery starts to run at most once in a run |
| Runs.RolledBackWasCurrent | internal/application/publisher/runner.go:1135-1146 | a release that reports its rollback had its baseline current again, under the revision it reports |
| Runs.MoveHasOwner | internal/application/publisher/runner.go:1086-1107 | whenever the revision changes, one record reports the new one as its own, and the new pair is one of its ends |
| Runs.OneLeaves | internal/application/publisher/runner.go:542-544 | of all releases at most one makes its first move off a given revision, in whatever operation |
| Runs.SecondMover | internal/application/publisher/runner.go:542-544 | a first move is off another revision than the expected one exactly if that has been left before, by another release |
| Runs.DrawnInstant | internal/application/publisher/runner.go:1093 | every revision was drawn at an instant at which `latest` was on the version it was drawn for, and for a completion or rollback that version had been reloaded since `latest` was switched |
| Runs.NotMovedBefore | internal/application/publisher/runner.go:542-544 | a release with an expected revision whose last record reports no move has not moved the target in any attempt |
| Runs.NotAnnouncedBefore | internal/application/publisher/runner.go:396-398 | a last record without an intent speaks for all attempts exactly if none came into doubt after announcing its switch |
| Runs.LinkOfOthers | internal/application/publisher/runner.go:697-707 | the link of a target is explained without a release that never announced a switch |
| Runs.RestoreTargetRetained | internal/application/publisher/runner.go:545-550 | what the restore_of guard lets through is the current or the previous version |
| Runs.ReloadedWhereTested | internal/application/publisher/runner.go:962-998 | every reload in every operation was issued on a link that an earlier nginx -t on the same link had passed |
| Runs.LinkAlwaysExplained | internal/application/publisher/runner.go:697-707 | at every instant the link is on the stored current version or on an end of a durable intent |
| Runs.RetryKeepsLink | internal/application/publisher/runner.go:560-567 | accepting a request keeps a link explained exactly if the current version or another record explains it |
| Counterexamples.RetryCanLoseLink | internal/application/publisher/runner.go:396-398 | a run in which a switched first release fails its local rollback, and its admissible retry leaves the link unaccounted for |
| Counterexamples.SkipWithoutReload | internal/application/publisher/runner.go:604-621 | after a save that reported an error, apply skips a commit that was never reloaded, unless the environment refuses something |
| Counterexamples.PromiseOfASkip | internal/application/publisher/runner.go:604-621 | the durable state guarantees a reload of the current commit exactly if a record with phase complete switched to it or a record was rolled back to it |
| Counterexamples.RestoreForgets | scripts/release_http.py:257-288 | five ways to a restored batch whose node has `latest` still on the update; four have a doubtful entry, the fifth has the record and the entry of a release that switched nothing |
| Counterexamples.CompleteResultChanges | internal/application/publisher/runner.go:1105-1107 | a commit whose save reports an error is a complete success, then in doubt with phase complete, then superseded |
| Counterexamples.AbortCutShort | internal/application/publisher/runner.go:1148-1157 | an abort that is cut off after its switch leaves `latest` on the old version and the state on the new one, startup or not |
| Counterexamples.AbortGoesBack | internal/application/publisher/runner.go:946-961 | of three staged releases the abort of the first undoes all three |
| Counterexamples.SecondMoverRun | internal/application/publisher/runner.go:911-985 | two releases expect revision 1 and both move the target, the superseded one by a test and a reload; with an abort instead, the update of the other is lost |
| Counterexamples.UnopenedCommand | internal/application/publisher/runner.go:941-944 | marking a release whose directory does not open keeps the invariant exactly if the current version is one of its ends, and all settled records exactly if it is not settled itself |
| Counterexamples.StaleCommand | internal/application/publisher/runner.go:941-944 | a run after which such a mark on the first of three releases makes the next startup's rollback undo all three |
| Transitions.RecordedWasReloaded | internal/application/publisher/runner.go:1086-1098 | a record with phase complete that switched to the current commit, or was rolled back to it, rests on a reload, in every run |
| Journeys.CrashAnywhere | internal/application/publisher/runner.go:557-738 | crashes in the release and in its recoveries leave, after one undisturbed startup, exactly the old or exactly the new current, previous and link; only an empty target keeps a recovery flag; a startup in which one action of an activation is refused settles it as well, exactly as before or switched |
| Journeys.StageThenCommands | internal/application/publisher/runner.go:956-1005 | stage followed by abort, by a failing test, or by a test and a failing reload returns pair and link of before; one refused action that is no save never leaves it in doubt |
| Journeys.CommandThenStartup | internal/application/publisher/runner.go:1122-1146 | after a command that was cut short, an undisturbed startup has link and current in step exactly if a switched release was marked active or they were in step already |
| Journeys.CommandReaches | internal/application/publisher/runner.go:946-1007 | a command that moves the target installs one of the two pairs of its release; that concerns the release alone if its revision is still the target's, and otherwise overrides the move of another release |
| Journeys.RollBackTwice | internal/application/publisher/runner.go:417-464 | two rollbacks, each tested and reloaded, return the original pair and link, and do so unless the environment refuses something |
| Journeys.Race | internal/application/publisher/runner.go:542-544 | with any requests of one expected revision and anything in between, at most one release of all takes the target off that revision, and a request never moves it first off another one |
| Journeys.CommandMovesSecond | internal/application/publisher/runner.go:911-1007 | a command moves no release for the first time but its own, and moves that off another revision than the expected one exactly if it has not moved before, the target is not on its starting revision, and the command moves the target |
| Journeys.StartupMovesSecond | internal/application/publisher/runner.go:1168-1228 | the same of a startup and the release it finds active |
| Journeys.Disturb | internal/application/publisher/runner.go:382-405 | whatever other clients, crashes and late deliveries do, completed records stay and an id stays bound to the body sent under it |
| Journeys.CompleteStays | internal/application/publisher/runner.go:382-405 | a result with phase complete that is not in doubt never changes, whatever others do |
| Journeys.CompleteUntilRequest | internal/application/publisher/runner.go:369-405 | a result with phase complete changes with a request exactly if it is in doubt, the request is let in, and it retries the release or finds it active; the if needs an environment that refuses nothing |
| Journeys.CompleteUntilStartup | internal/application/publisher/runner.go:1168-1228 | a startup changes a result with phase complete only if it finds it active, which then is in doubt; and exactly then if undisturbed |
| Batch.Client.constructor | scripts/release_http.py:121-140 | the first batch file holds one prepared request per node with the revision read there |
| Batch.Preflight | scripts/release_http.py:121-140 | every recorded revision and version was the node's at one instant of its run |
| Batch.Client.Store | scripts/release_http.py:61-79 | the file is the old or the new batch, and the client goes on only if it is the new one |
| Batch.Client.CommandRound | scripts/release_http.py:159-177 | only the expected answer brings the release forward |
| Batch.Client.AnnouncedFirst | scripts/release_http.py:160-165 | before an nginx command is sent, the file announces it and holds the success it builds on |
| Batch.Client.ActivateRelease | scripts/release_http.py:150-177 | a returned result is complete and confirmed by the node's record |
| Batch.Client.ReadReply | scripts/release_http.py:220-247 | the attempt asks again exactly after a busy or unclassified refusal; a terminal answer counts only from an accepted record; no other entry changes; a refusal leaves the entry as it was but turned away, an end or a need for recovery is stored |
| Batch.Client.ExecuteNode | scripts/release_http.py:180-254 | a finished attempt has its outcome in the durable file; a stored good result is never replaced; a request is sent at most once per attempt; if nothing stands in the way, a release that the node knows is taken up where it is (its end is reported, its outstanding commands are sent), and a body that will be let in is brought through, or skipped if it is current |
| Batch.Client.ReadState | scripts/release_http.py:191-210 | an end is stored and reported as it is, a staged release is brought through, a need for recovery is stored; only a running release leaves the question open |
| Batch.Client.MakeUndo | scripts/release_http.py:271-283 | a restore request is made only while the node is where the update left it; it names release, revision, commit, version and frontend digest of what preflight read and the update replaced, and is made whenever the node is there and nothing stands in the way |
| Batch.Client.ResolveAll | scripts/release_http.py:260-265 | before any restore every write of the batch is resolved, or taken for resolved; and they are if the node knows how each of the others ended, or can be asked for its next command, and nothing stands in the way |
| Batch.Client.UndoAll | scripts/release_http.py:266-286 | with every write resolved, each stored success is put back, last node first; this succeeds if nothing stands in the way and the nodes are where the update left them |
| Batch.Client.RestoreBatch | scripts/release_http.py:257-288 | "restored" is written only when every successful node has a complete restore; a client that is still there has written "restoring" or "restored"; and "restored" it is if every write is resolved, the updated nodes are where the update left them, and nothing stands in the way |
| Batch.Client.ReverseOrder | scripts/release_http.py:266-286 | when a restore is sent, the file shows every write resolved and every later updated node restored |
| Batch.Client.PrepareFrontend | scripts/release_http.py:291-305 | only the digest of a request that is still prepared changes, to the batch's; otherwise the digests agree or the node is done |
| Batch.Client.RecordDigest | scripts/release_http.py:308-318 | one digest for all results of a frontend batch |
| Batch.Client.UpdateBatch | scripts/release_http.py:321-344 | nodes go in order, and "succeeded" is written only when all are done; a failed update is followed by a restore exactly if the policy asks for one, and is left incomplete otherwise; a batch under restore is left alone; a new batch on nodes that are ready for it succeeds if nothing stands in the way |
| Batch.Client.RestoredMeansPutBack | scripts/release_http.py:257-288 | in a restored batch every node whose entry is not doubtful had its preflight version current again, by the restore or its own rollback, with `latest` on it and reloaded since it was switched there; or the update has never moved it, and has not touched `latest` exactly if no attempt came into doubt after announcing its switch |
| Batch.Client.RestoredMeansRestored | scripts/release_http.py:257-288 | in a restored batch each node with a stored success had, when its restore was installed, the preflight commit as current, with `latest` on it and reloaded since it was switched there, and the update's commit as previous |
| Batch.Client.FixedBody | scripts/release_http.py:291-305 | all posts under one release id have the same body |
| Batch.Client.DurableFirst | scripts/release_http.py:211-217 | before a post the file holds its body, a phase other than prepared, and good results for all earlier nodes |
| Batch.Client.UpdatedMeansEverywhere | scripts/release_http.py:321-344 | in a succeeded batch every node's record is complete with a candidate of the requested commit, or skipped on it; for a frontend one digest is in all the results and in the candidates of the completed ones |
| Batch.Deploy | scripts/release_http.py:347-410 | the whole program keeps these facts over any number of runs that die anywhere |
| Snapshots.Directory.WalkMatches | internal/application/publisher/apply.go:133-162 | comparing file by file and counting accepts exactly the trees equal to the manifest |
| Snapshots.Directory.VerifySnapshot | internal/application/publisher/apply.go:116-164 | accepts exactly the intact snapshots, faults aside: those with a readable manifest of this commit, source and seal, whose files are those on disk and whose assets are among them |
| Snapshots.Directory.Rebuild | internal/application/publisher/apply.go:200-335 | the new snapshot holds the files of the fetched tree, or of the server's own directory in it, and its marker, and agrees with its manifest |
| Snapshots.Directory.PrepareSnapshot | internal/application/publisher/apply.go:165-335 | a prepared version is intact whatever was there; without a fault it succeeds exactly if it may reuse or can rebuild; of snapshots that are not nested, an intact one is reused and one of another source is neither returned nor changed; other commits are untouched; what is published is the server's own directory if the tree has one and the tree otherwise, name by name, without the CI manifest of shared assets; the manifest lists just that; it is refused exactly if that tree must not be published |
| Snapshots.Directory.PrepareTwice | internal/application/publisher/apply.go:177-198 | a snapshot just made is replaced under another source exactly if its site holds a file under a directory of the server's name |
| Snapshots.Directory.PrepareThenVerify | internal/application/publisher/apply.go:116-335 | what prepare returns, verify accepts |
| Snapshots.Directory.InstallAssets | internal/application/publisher/apply.go:475-503 | installed assets never change; success installs every named asset with its digest; without a fault only another installed asset of the same name stops it |
| Snapshots.Directory.KeepHeld | internal/application/publisher/apply.go:532-537 | collects exactly the commits of baseline and candidate of records that are unfinished, or are a frontend's, announced their switch and finished within the retention time |
| Snapshots.ReferencedIsNeeded | internal/application/publisher/apply.go:517-537 | the protected set is exactly the commits of current, previous, link, and of unfinished or still retained records |
| Snapshots.SortNewestFirst | internal/application/publisher/apply.go:553-558 | a permutation of the manifests, latest first |
| Snapshots.Directory.SweepSnapshots | internal/application/publisher/apply.go:559-580 | wherever the loop stops, nothing kept and nothing without a manifest is touched; at its end exactly the kept manifests are left |
| Snapshots.Directory.SweepAssets | internal/application/publisher/apply.go:581-605 | removes only assets that are old and named by no kept manifest, and all of those unless a fault stops it |
| Snapshots.Directory.CleanupSnapshots | internal/application/publisher/apply.go:504-606 | snapshot, manifest and assets of every version that is current, previous, live, or named by an unfinished or still retained record survive, wherever the sweep stops; success leaves exactly those and the newest; without a fault it fails only over an unreadable manifest, or one to be removed that has lost its snapshot |
| Snapshots.Directory.VerifyRetainedAssets | internal/application/publisher/runtime.go:32-66 | succeeds exactly if the manifest and assets of current, previous and every version named by an unfinished or still retained record, except the given one, are there, faults aside |
| Snapshots.ProbedWasReferenced | internal/application/publisher/runtime.go:36-50 | what is probed later was protected by an earlier sweep |
| Snapshots.Directory.CleanupThenProbe | internal/application/publisher/runtime.go:32-66 | after a sweep, finished or not, a later probe with the same records finds everything it asks for, if it was there before the sweep |
| Snapshots.Directory.CleanupThenRestore | internal/application/publisher/apply.go:504-606 | after a sweep, finished or not, the check that a local rollback begins with accepts the version to go back to exactly if it was intact before, for an unfinished release and for one whose revision is the target's |
| Snapshots.RestoreTargetReferenced | internal/application/publisher/apply.go:517-537 | the target of an admissible restore, or of RollbackCurrent, is protected in every reachable state |
| Snapshots.CountedAll | internal/application/publisher/apply.go:159-161 | equal counts turn an inclusion of files into equality |
| Fleet.WithinIsPrefix | internal/infrastructure/fsutil/fs.go:55-58 | the textual test is exactly the component-prefix order |
| Fleet.Runner.Conflicts | internal/application/publisher/runner.go:263-273 | a conflict is found exactly if another registered directory contains or lies in the new one |
| Fleet.Runner.Register | internal/application/publisher/runner.go:230-315 | registered directories form an antichain apart from the service's own directory, across environments and kinds; without a fault a directory is let in exactly if it overlaps none of them and there is room for it, or it is registered for the same kind |
| Fleet.Runner.Elsewhere | internal/application/publisher/runner.go:382-390 | tells exactly whether another target has a record of the id |
| Fleet.Runner.Apply | internal/application/publisher/runner.go:477-567 | an id recorded for another target is refused and leaves state, link and history alone; any other request fares as it does on its target; no id is ever recorded for two targets |
| Fleet.Runner.Serve | internal/application/publisher/runner.go:879-1010 | commands, rollbacks, crashes and startups keep release ids unique |
| Fleet.Runner.Load | internal/application/publisher/runner.go:172-192 | the duplicate check over all records never fails |

## Left out

- Publisher.Node.Check: whether a check succeeds is up to the environment here; `Snapshots.dfy` proves separately what acceptance means and that what prepare returns is accepted.
- Publisher.Node.Query: answers from the durable state between operations, even when the node is blocked. The code then answers from its in-memory view, and as it takes no lock it can also read a save that landed just before its operation reported an error (`Counterexamples.CompleteResultChanges` has such an instant); what Batch says of stored results holds for answers between operations.
- Publisher.Node.OpenCommand: the directory is assumed to open where a failure would mark the release as needing recovery (internal/application/publisher/runner.go:941-943), because that breaks the invariant of all operations; `Counterexamples.UnopenedCommand` says exactly when.
- Journeys.CompleteStays: holds where directories open, for the same reason, and so does everything that says that settled records stay.
- Publisher.Node.Admit: the lookup before the locks, and the environment and parameter checks of requests are not modelled.
- Publisher.Node.RollbackCurrent: the state is read under the same lock as the staged release that follows, that is, nothing intervenes between the two.
- Snapshots.Directory.CleanupSnapshots: one clock reading serves the whole sweep, and a target without a manifest directory is one without manifests.
- Snapshots.Directory.Rebuild: hashed file names and references inside frontend files are one refusable test; directory entries, size limits and file modes are not modelled.
- Fleet.Runner.Register: the overlap test against the lock file and against configured sites that are not registered yet.
- Real git, registry, tar, nginx and HTTP probes: each is an outcome that the environment picks.
- Digests, JSON and UUIDs: injective digests (a seal is the hashed value itself), lossless encoding, fresh identifiers.
- Context deadlines and cancellation: a step may be refused at any point; time is one value per operation, used for retention only.
- Step lists, warnings, messages, metrics, logs, verification times and publication of in-memory views.
- Legacy layouts and phases: releases/ links, awaiting nginx phases, unverified baselines, baseline adoption.
- Blocking because of targets that are no longer configured, and the stopping flag.
- The older design document edge-sync-agent-design-v3.md says that a release that needs recovery blocks later ones; the code lets a new request take over, and the model follows the code.
- HTTP server, authentication, allow-lists, configuration parsing, Jenkins and shell scripts: they would only add easy members.
