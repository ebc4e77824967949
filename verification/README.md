# Verification of the field canvassing backend

A Dafny model of the parts of the backend that keep relational state under invariants, and of two small
algorithmic files: the geography hierarchy, the turf life cycle, the CSV import with its review queue, the
credential life cycles of sign-in and recovery, the diagnostics log of the mobile queue, base32 and one-time codes,
retention cleanup, and the counting loops of the reports. Run `dafny verify dfyconfig.toml` with Dafny 4.11.

## How the model is laid out

Each service has two layers. The first is a module of values: the tables as datatypes, every operation as a total
function from tables to an answer (an error is an answer too), and runs as sequences of operations. The properties
are lemmas about these functions and runs. The second layer is a class with the tables as fields, whose methods
perform the source's statements in the source's order; each method is proved to leave exactly the tables and the
answer that the function gives, so every property of the runs is a property of the classes.

What a single call means is stated apart from both layers. The modules named `Effects` and `ReportCounts`, and the laws
at the end of the smaller modules, say on the fields of rows alone, without the functions that compute them, exactly
when a call is accepted, what it writes into which field, what stays as it was, and which cause an error names.

| files | source |
|---|---|
| `GeographyForest.dfy`, `GeographyEffects.dfy`, `GeographyService.dfy` | the parent pointers, depths and closure table of the geography service |
| `TurfTables.dfy`, `TurfEffects.dfy`, `TurfService.dfy` | turfs, assignments and sessions |
| `ImportTables.dfy`, `ImportProperties.dfy`, `ImportMembership.dfy`, `ImportErrors.dfy`, `ImportRepeat.dfy`, `ImportEffects.dfy`, `ImportService.dfy` | CSV import and duplicate review |
| `CredentialVault.dfy`, `CredentialProperties.dfy`, `CredentialEffects.dfy`, `CredentialServices.dfy`, `RateLimit.dfy` | sign-in with its lockout, tokens, MFA challenges, recovery cases, the limiter |
| `SyncDiagnostics.dfy` | the pruned transition log of the mobile queue |
| `Base32.dfy`, `Totp.dfy` | MFA secrets and codes |
| `Retention.dfy` | batched cleanup |
| `Reports.dfy`, `ReportCounts.dfy`, `ReportDays.dfy` | counting loops, session minutes, and the days of a time zone |
| `Common.dfy` | options, results, and the table operations (`findFirst`, `updateMany`, `count`, ...) |

Conventions:

- A service call is one step. Time is an input; where order matters it does not decrease.
- Tables that are only appended to are sequences and a row's id is its position; `findFirst` takes the first row in
  table order. Random secrets, ids that the caller draws, and HMAC-SHA-1 are inputs, the last a function parameter.
- A text stands for what is left of it after trimming, and an optional text that is empty stands for none, except the
  fallback turf name of an import, which the source takes as it is.
- Rows that retention deletes from the token tables stay in the model, marked as purged: no lookup, update or count
  meets them, and ids stay positions. Other writers of a table (changes to users, cleanups, addresses from imports)
  are steps of the runs beside the calls of the services.
- An update of a geography node with an empty text as parent passes every check, relinks the subtree, and is then
  rejected by the closing write, which undoes it; the model answers with an error and unchanged tables.
- Statuses are renamed where a name is taken: an assignment is Given, Working, Finished or
  Removed (assigned, active, completed, removed), a session Active, OnPause, Ended or ForceClosed.
- Reset tokens, activation tokens and MFA challenges are three tables of the same shape and are modelled as one with a
  kind. `RefreshToken.origin` is no column: it records which login a token descends from, and no operation reads it
  except to pass it on.

## What the proofs found

- `verifyTotp` looks one step back first. Until thirty seconds after the epoch that step has a negative counter, which
  the unsigned counter buffer refuses with a range error, so a code is then not accepted but raises
  (`Totp.CodeIsAccepted` states exactly when).
- The branch of `completeSession` that keeps a turf in progress is never taken, and the guards of `startSession`
  against other sessions, with their exception for shared turfs, never refuse a canvasser who holds the assignment.
- A turf can be `assigned` to nobody: exactly when a call took its canvasser to another turf and none has assigned,
  reopened, archived or deleted it since (`TurfTables.StaleInEveryRun`).
- A supervisor's move can be undone by the same supervisor exactly if the moved node is the supervisor's own or went to
  where that node is above it (`GeographyForest.UpdateCanBeUndone`); a run in which it cannot is
  `GeographyForest.UndoCanBeRefused`.
- That pruning the diagnostics on every transition equals pruning once depends on a clock that does not run
  backwards. For one that does there are runs that lose an entry under every policy. Which dropped entries matter to a
  step, on a log of any order, is exactly `SyncDiagnostics.DroppedEntriesMatter`; for a step no earlier than the pruning
  before it, `SyncDiagnostics.PruneTwiceExactly`.
- Retention erases the raw data of pending import reviews too: they can then only be skipped
  (`ImportProperties.ReviewsInEveryRun`). The error for a missing duplicate candidate cannot occur.
- The product documentation promises a lock of fifteen minutes after five failed logins. The code (auth.service.ts,
  lines 298 and 333) also takes the account out of use, so it stays closed until a reset, an activation or an administrator reopens it
  (`CredentialProperties.LockOutlastsItsTime`).
- Retention deletes revoked refresh tokens at any age, so the replay of a rotated token is noticed only until the next
  cleanup (`CredentialProperties.ReplayIsNoticedUntilCleanup`).
- A report's day ends a millisecond before midnight, so daily reports miss one millisecond for every midnight that a
  session runs through (`ReportDays.DailyReportsAddUp`).
- The summed unique addresses of the productivity report exceed the addresses visited as soon as two canvassers
  visited the same address.
- Break-glass recovery is allowed by the code whatever the target's role (`CredentialProperties.BreakGlassIgnoresRole`),
  while the documentation describes it for administrators.

## Model

| member | source | states |
|---|---|---|
| `GeographyForest.ClosureAfterAnyRun` | backend/src/geographies/geographies.service.ts:87-187 | After any sequence of creates and updates, accepted or refused, a closure link (a, d, k) exists if and only if following the parent pointer exactly k times from d reaches a. |
| `GeographyForest.ForestAfterAnyRun` | backend/src/geographies/geographies.service.ts:87-187 | After any such sequence no chain of parents returns to its start or leaves its organisation, and a node's stored depth is the length of its chain to a root. |
| `GeographyForest.RunKeepsValid` | backend/src/geographies/geographies.service.ts:73-187 | Every reachable state is a forest on consistent levels whose link table is exactly its reflexive-transitive closure. |
| `GeographyForest.NextKeepsValid` | backend/src/geographies/geographies.service.ts:73-187 | A single call keeps that invariant from any state that has it. |
| `GeographyForest.DepthIsChainLength` | backend/src/geographies/geographies.service.ts:95-110 | In any such forest the stored depth counts the steps to the root, the node that many steps up has no parent, and no node is its own proper ancestor. |
| `GeographyForest.CreateKeepsClosure` | backend/src/geographies/geographies.service.ts:101-109 | Copying the parent's links one level further, plus the self-link, makes the table the closure of the pointers with the new leaf, and never repeats a key. |
| `GeographyForest.CreateKeepsValid` | backend/src/geographies/geographies.service.ts:73-111 | An accepted create keeps pointers, depths and closure in agreement. |
| `GeographyForest.CycleTestIsExact` | backend/src/geographies/geographies.service.ts:139-142 | The closure lookup refuses a new parent exactly when following parent pointers from that parent reaches the node. |
| `GeographyForest.GraftNeverCollides` | backend/src/geographies/geographies.service.ts:148-166 | After the crossing links are deleted, no link of the cross product has a key that is still in the table. |
| `GeographyForest.MoveKeepsClosure` | backend/src/geographies/geographies.service.ts:146-166 | Deleting the crossing links and inserting the cross product gives the closure of the changed parent pointers, with exact distances. |
| `GeographyForest.MoveKeepsForest` | backend/src/geographies/geographies.service.ts:167-175 | Adding one delta to every depth of the moved subtree puts each of its nodes one level below its parent again. |
| `GeographyForest.MoveChangesOnlyCrossingLinks` | backend/src/geographies/geographies.service.ts:148-166 | A move changes no link except those from outside into the moved subtree, and these become exactly the links from the new parent and its ancestors. |
| `GeographyForest.UpdateKeepsValid` | backend/src/geographies/geographies.service.ts:123-187 | An accepted update, whether it moves the node or only edits it, keeps pointers, depths and closure in agreement. |
| `GeographyForest.PointersDetermineTables` | backend/src/geographies/geographies.service.ts:87-187 | Two reachable states with the same parent pointers have the same depths and the same links. |
| `GeographyForest.MoveBackRestores` | backend/src/geographies/geographies.service.ts:146-187 | Moving a node away and back to its old parent restores every node, depth and link exactly. |
| `GeographyForest.UpdateCanBeUndone` | backend/src/geographies/geographies.service.ts:123-187 | For every caller, an accepted change of parent is undone exactly by a second update that names the old parent, except that it is refused with nothing changed if the caller is a supervisor who moved a node other than the own one to where the own node is not above it; that can be told before the first update. |
| `GeographyForest.MovableIsAccepted` | backend/src/geographies/geographies.service.ts:130-144 | For every caller, a change of parent to a node of the organisation outside the subtree is accepted if and only if the caller may address the node moved, and otherwise refused for that reason. |
| `GeographyForest.AboveAfterMove` | backend/src/geographies/geographies.service.ts:146-166 | After a move the nodes above the moved node are itself, the new parent and what is above the new parent, and no other. |
| `GeographyForest.SightAfterMove` | backend/src/geographies/geographies.service.ts:31-46 | A caller who could address the moved node can address it afterwards exactly if no supervisor, or the moved node is the supervisor's own, or the new parent is in the supervisor's subtree. |
| `GeographyForest.UndoCanBeRefused` | backend/src/geographies/geographies.service.ts:123-187 | A run of creates reaches tables in which a supervisor's accepted move cannot be taken back by that supervisor. |
| `GeographyForest.VisibleMeaning` | backend/src/geographies/geographies.service.ts:31-46 | A supervisor may address exactly the nodes of the organisation at or below the assigned node; other callers may address those of the organisation. |
| `GeographyForest.ListedAreVisible` | backend/src/geographies/geographies.service.ts:48-71 | With any filter, by parent, by kind and with or without inactive nodes, the list contains exactly the nodes matching it that the caller may address one by one; for a supervisor all of them descend from the assigned node. |
| `GeographyForest.NextKeepsNames` | backend/src/geographies/geographies.service.ts:87-187 | No call changes the organisation or the external id of a node, or introduces an external id already taken in the organisation. |
| `GeographyForest.NamesInEveryRun` | backend/src/geographies/geographies.service.ts:87-187 | In every run external ids are unique within an organisation. |
| `GeographyService.GeographiesService.AddNode` | backend/src/geographies/geographies.service.ts:73-121 | The in-place steps of a create leave exactly the tables and the answer of the specified create, and keep the invariant. |
| `GeographyService.GeographiesService.UpdateNode` | backend/src/geographies/geographies.service.ts:123-199 | The in-place steps of an update leave exactly the specified tables and answer, every refusal leaves the tables alone, and the invariant is kept. |
| `GeographyService.GeographiesService.ShiftAll` | backend/src/geographies/geographies.service.ts:167-175 | The loop over the subtree adds the delta to the depth of exactly the nodes of the subtree, whatever order it visits them in. |
| `GeographyService.GeographiesService.Relink` | backend/src/geographies/geographies.service.ts:148-166 | Deleting and inserting link rows in sequence produces the relinked table. |
| `GeographyService.GeographiesService.ReportingFilter` | backend/src/geographies/geographies.service.ts:221-234 | The filter lists each node of the subtree once, no other node, ancestors before descendants, and exactly the turfs and undeleted users placed in the subtree. |
| `TurfTables.MatchingInEveryRun` | backend/src/turfs/turfs.service.ts:321-378 | In every run two open assignments share neither turf nor canvasser, two open sessions share neither (also on shared turfs), and every open session has an open assignment of the same turf and canvasser. |
| `TurfTables.StatusInEveryRun` | backend/src/turfs/turfs.service.ts:380-385 | In every run a turf in progress has exactly one open session and it is active, a paused one exactly one and it is paused, a reopened one none, and an unassigned, completed, archived or deleted one neither an open session nor an open assignment. |
| `TurfTables.RunKeepsValid` | backend/src/turfs/turfs.service.ts:298-1050 | The joint invariant over turfs, assignments and sessions holds after any sequence of calls. |
| `TurfTables.NextKeepsValid` | backend/src/turfs/turfs.service.ts:298-1050 | Every single call, accepted or refused, keeps the joint invariant. |
| `TurfTables.AssignKeepsValid` | backend/src/turfs/turfs.service.ts:298-404 | Releasing the turf's and the canvasser's other assignments before adding the new one keeps the matching and the backing of open sessions. |
| `TurfTables.StartKeepsValid` | backend/src/turfs/turfs.service.ts:759-835 | Starting a session keeps the invariant. |
| `TurfTables.PauseKeepsValid` | backend/src/turfs/turfs.service.ts:837-889 | Pausing keeps the invariant: session and turf change status together. |
| `TurfTables.ResumeKeepsValid` | backend/src/turfs/turfs.service.ts:891-962 | Resuming keeps the invariant. |
| `TurfTables.CompleteKeepsValid` | backend/src/turfs/turfs.service.ts:964-1053 | Completing keeps the invariant. |
| `TurfTables.ReopenKeepsValid` | backend/src/turfs/turfs.service.ts:406-460 | Reopening keeps the invariant. |
| `TurfTables.ReleaseKeepsValid` | backend/src/turfs/turfs.service.ts:480-510 | Removing the open assignment of an idle turf while archiving it or marking it deleted keeps the invariant. |
| `TurfTables.DeleteKeepsValid` | backend/src/turfs/turfs.service.ts:535-592 | An accepted deletion, with its addresses, keeps the invariant. |
| `TurfTables.DeleteTakesAddresses` | backend/src/turfs/turfs.service.ts:563-590 | Deleting a turf leaves no live address on it, removes no row, and changes no address of another turf. |
| `TurfTables.CompleteAlwaysCompletes` | backend/src/turfs/turfs.service.ts:1008-1034 | From every valid state a completed session leaves no open session and no open assignment on its turf, so the turf is always marked completed by the canvasser and the other branch is never taken. |
| `TurfTables.StartSucceeds` | backend/src/turfs/turfs.service.ts:133-172 | From every valid state a start succeeds if and only if the canvasser holds the turf's open assignment; the two session guards, with their test for shared turfs, never refuse it. |
| `TurfTables.SwitchesSucceed` | backend/src/turfs/turfs.service.ts:843-983 | Pause, resume and complete succeed if and only if the canvasser has an open session on the turf that is active, paused, or either. |
| `TurfTables.LookupsAreUnique` | backend/src/turfs/turfs.service.ts:783-790 | The lookups for an open session or assignment never have two rows to choose from. |
| `TurfTables.AssignedGoesStale` | backend/src/turfs/turfs.service.ts:353-385 | When a canvasser is assigned elsewhere, the turf left behind keeps its row as it was and has no open assignment, so it is then `assigned` to nobody exactly if its status was `assigned`. |
| `TurfTables.StaleStep` | backend/src/turfs/turfs.service.ts:353-385 | After any call a turf is `assigned` without an open assignment if and only if the call was an accepted assignment of its canvasser to another turf, or it was so before and the call did not assign, reopen, archive or delete it. |
| `TurfTables.StaleInEveryRun` | backend/src/turfs/turfs.service.ts:353-385 | After any sequence of calls a turf is `assigned` without an open assignment if and only if some call took its canvasser away and no later call assigned, reopened, archived or deleted it; otherwise an `assigned` turf has one. |
| `TurfTables.FirstTurfGoesStale` | backend/src/turfs/turfs.service.ts:298-404 | Such a state is reached from empty tables: two turfs created, one canvasser assigned to the first and then to the second. |
| `TurfTables.AssignedTurfCanBeWorked` | backend/src/turfs/turfs.service.ts:759-835 | After an idle turf was assigned, its canvasser's start succeeds and leaves an active session. |
| `TurfTables.ActiveSessionCanBePaused` | backend/src/turfs/turfs.service.ts:837-962 | From every valid state an active session can be paused and then resumed, and is active again. |
| `TurfTables.OpenSessionCanBeCompleted` | backend/src/turfs/turfs.service.ts:964-1053 | From every valid state an open session can be completed, which completes the turf. |
| `TurfService.TurfsService.Assign` | backend/src/turfs/turfs.service.ts:298-404 | The statements of the transaction, in the source's order, leave exactly the specified tables and answer and keep the invariant. |
| `TurfService.TurfsService.Start` | backend/src/turfs/turfs.service.ts:759-835 | As for Assign, for starting a session. |
| `TurfService.TurfsService.Pause` | backend/src/turfs/turfs.service.ts:837-889 | As for Assign, for pausing. |
| `TurfService.TurfsService.Resume` | backend/src/turfs/turfs.service.ts:891-962 | As for Assign, for resuming. |
| `TurfService.TurfsService.Complete` | backend/src/turfs/turfs.service.ts:964-1053 | As for Assign, for completing: the counts are taken after the session and its assignment were closed. |
| `TurfService.TurfsService.Reopen` | backend/src/turfs/turfs.service.ts:406-460 | As for Assign, for reopening. |
| `TurfService.TurfsService.Archive` | backend/src/turfs/turfs.service.ts:462-533 | As for Assign, for archiving, with its conditional reason. |
| `TurfService.TurfsService.Delete` | backend/src/turfs/turfs.service.ts:535-621 | As for Assign, for deleting, with the soft deletion of the turf's addresses. |
| `ImportProperties.GroupingPartitions` | backend/src/imports/imports.service.ts:385-392 | Every row number from 1 to n is in exactly one group, once, and the groups have n entries in all. |
| `ImportProperties.GroupsAreByName` | backend/src/imports/imports.service.ts:385-392 | Each turf name has one group, no group is empty, and each entry is the CSV row of its number under that row's turf name. |
| `ImportProperties.ImportKeepsBooks` | backend/src/imports/imports.service.ts:470-679 | A successful import adds one batch whose five counters equal the tallies of its row statuses and sum to the number of CSV rows, each result under its own row and turf name. |
| `ImportProperties.ImportRecordsEveryRowOnce` | backend/src/imports/imports.service.ts:470-679 | In that batch every row from 1 to n has exactly one result and no other number has any. |
| `ImportProperties.CountersInEveryRun` | backend/src/imports/imports.service.ts:655-676 | After any sequence of imports, review resolutions and redactions, failed ones included, the five counters of every batch sum to its row count and none is negative. |
| `ImportProperties.RunKeepsValid` | backend/src/imports/imports.service.ts:347-706 | Through every sequence of imports, reviews and redactions by retention, even after imports that stop halfway, a household has at most one live address on a turf, references resolve, and counters tally. |
| `ImportProperties.ImportKeepsValid` | backend/src/imports/imports.service.ts:347-706 | One import, in any mode and by any strategy, keeps that invariant whether it succeeds or stops. |
| `ImportProperties.ReviewKeepsValid` | backend/src/imports/imports.service.ts:950-1090 | A resolved review moves one unit between the counters of its batch so that they keep tallying, and keeps every other part of the invariant. |
| `ImportProperties.ReviewSucceeds` | backend/src/imports/imports.service.ts:134-140 | A review succeeds if and only if the row is under review in the caller's scope and, where it is to be merged, its raw data is still there; without it the error is the one for missing raw data, and the error for a missing candidate is never raised. |
| `ImportProperties.RedactionKeepsValid` | backend/src/retention/retention.service.ts:303-312 | Erasing the raw data of any batches, pending rows included, keeps the invariant. |
| `ImportProperties.RawInEveryRun` | backend/src/retention/retention.service.ts:303-312 | In every run the raw data of all rows of a batch is there until the batch is redacted, and none of it afterwards. |
| `ImportProperties.ReviewsInEveryRun` | backend/src/imports/imports.service.ts:950-1090 | In every run a pending row can be skipped at any time, and merged if and only if its batch has not been redacted. |
| `ImportProperties.AccountedAddsUp` | backend/src/imports/imports.service.ts:655-661 | Counters that tally the row statuses sum to the row count and are not negative. |
| `ImportProperties.ImportConservesMemberships` | backend/src/imports/imports.service.ts:583-633 | Live addresses after a successful import are those before, plus the imported count, minus the removed count. |
| `ImportErrors.ImportSucceeds` | backend/src/imports/imports.service.ts:378-528 | Decided from the tables before: an import succeeds if and only if it has rows, each group names at most one geography, a known and active one, and, where duplicates are errors, no usable row resolves to a household that its turf already holds or that an earlier row of the group resolved to. |
| `ImportErrors.RowsGoOn` | backend/src/imports/imports.service.ts:513-523 | Where duplicates are errors the rows of a group run to their end if and only if none of them resolves to a member of the turf or to the household of an earlier one; the members and households afterwards are those that the rows alone determine. |
| `ImportErrors.GroupMeetsMembers` | backend/src/imports/imports.service.ts:433-446 | When its turn comes, a group finds the turf and the members that the tables had before the import. |
| `ImportMembership.ImportSetsMembers` | backend/src/imports/imports.service.ts:433-634 | After a successful import the turf of each group, which bears its name, has exactly the households its rows resolved to, plus those it had before unless they were replaced; in replace mode a group with a usable row leaves exactly the households its rows resolved to. |
| `ImportMembership.ImportLeavesOtherTurfs` | backend/src/imports/imports.service.ts:616-633 | A turf that no usable row was imported into keeps exactly the addresses it had, unchanged. |
| `ImportMembership.GroupSetsMembers` | backend/src/imports/imports.service.ts:448-633 | The same for a single group: what its turf holds afterwards is determined by its rows, the mode, and what it held before. |
| `ImportMembership.RowsAddHouseholds` | backend/src/imports/imports.service.ts:470-614 | While a group's rows are imported its turf gains exactly the households collected in the set of imported households, and that set is what the results name. |
| `ImportRepeat.ImportingAgainChangesNothing` | backend/src/imports/imports.service.ts:347-706 | If every usable row carries a VAN household id, then after a successful import in upsert or replace mode, by any duplicate strategy, importing the same rows again with duplicates skipped succeeds, creates, merges, removes and queues nothing, and leaves turfs, households and addresses exactly as they were. |
| `ImportRepeat.GroupsSettle` | backend/src/imports/imports.service.ts:259-267 | After such an import every group finds its turf again and every row its household and address again, with nothing left to complete on the household. |
| `ImportRepeat.MatchingKeepsMatched` | backend/src/imports/imports.service.ts:302-345 | Matching, completing or creating a household for one row with a VAN household id neither changes the household another such row matches nor makes that household incomplete for it. |
| `ImportRepeat.SettledGroupsAreSkipped` | backend/src/imports/imports.service.ts:513-581 | Groups that are settled are imported without any change to the tables. |
| `ImportService.ImportsService.EnsureHousehold` | backend/src/imports/imports.service.ts:288-345 | Match, complete or create: leaves exactly the specified households and answers the specified row. |
| `ImportService.ImportsService.ImportOne` | backend/src/imports/imports.service.ts:470-614 | One iteration of the row loop leaves the specified tables, counters and result, also when a duplicate stops the import. |
| `ImportService.ImportsService.GroupByTurf` | backend/src/imports/imports.service.ts:385-392 | The grouping loop computes the specified groups. |
| `ImportService.ImportsService.Import` | backend/src/imports/imports.service.ts:347-706 | The nested loops leave exactly the tables and report of the specified import; an error leaves what was written before it. |
| `ImportService.ImportsService.ResolveImportReview` | backend/src/imports/imports.service.ts:950-1113 | The separate row, address and batch updates together are the specified review, and a refusal changes nothing. |
| `CredentialProperties.RedeemedAtMostOnce` | backend/src/auth/auth.service.ts:781-844 | After a refresh token was redeemed, presenting it again fails, whatever calls and cleanups happened in between, except after a cleanup has deleted it and a later token bears the same secret. |
| `CredentialProperties.OnlyNewestOfLineageIsLive` | backend/src/auth/auth.service.ts:267-279 | In every run, however the clock runs, each lineage of refresh tokens (those descending from one login) has at most one unrevoked token, its newest. |
| `CredentialProperties.ReplayLocksOut` | backend/src/auth/auth.service.ts:781-813 | Replaying a rotated token after the grace period is refused and leaves the user without an unrevoked token, and this lasts until a new session is issued to the user. |
| `CredentialProperties.RefreshEffect` | backend/src/auth/auth.service.ts:781-875 | The only effects any call has on refresh tokens are starting a session (login, MFA completion, activation), exchanging one live token, revoking live tokens, or deleting expired and revoked ones. |
| `CredentialProperties.RunPersists` | backend/src/auth/auth.service.ts:781-875 | A refresh token keeps its user, secret, expiry and lineage through every run, a revoked one its revocation, and a deleted one does not come back. |
| `CredentialProperties.AtMostOneUnusedPerKind` | backend/src/auth/auth.service.ts:192-219 | In every run of both services, however the clock runs, a user has at most one open reset token, one open activation token and one open MFA challenge per purpose. |
| `CredentialProperties.RunKeepsValid` | backend/src/recovery/recovery.service.ts:100-213 | The joint invariant over tokens, artefacts, impersonations and cases holds after any run of both services with a clock that does not run backwards. |
| `CredentialProperties.ServeKeepsValid` | backend/src/recovery/recovery.service.ts:100-213 | Any single call of either service keeps it. |
| `CredentialProperties.CasesInEveryRun` | backend/src/recovery/recovery.service.ts:157-213 | In every run requester, reviewer and target of an executed case are three people, the case was executed before it expired, and a target has at most one pending unexpired case. |
| `CredentialProperties.SettledStaysInRun` | backend/src/recovery/recovery.service.ts:138-213 | A case that is no longer pending never changes again. |
| `CredentialProperties.ApprovedAtMostOnce` | backend/src/recovery/recovery.service.ts:157-213 | Once a case was approved, every later approval of it fails. |
| `CredentialProperties.ApprovalWipesTarget` | backend/src/recovery/recovery.service.ts:178-213 | Right after an approval the target has no live session, open impersonation, backup code, MFA secret or unused artefact, except exactly one reset token when the case type calls for one. |
| `CredentialProperties.ApprovalSparesOthers` | backend/src/recovery/recovery.service.ts:178-213 | An approval changes no user, token, artefact, code or case of anyone else. |
| `CredentialProperties.FreshSessionCanRefresh` | backend/src/auth/auth.service.ts:251-288 | A token just issued by a sign-in can be redeemed if and only if it has not expired and the user is active, given that its secret was not drawn before. |
| `CredentialProperties.FreshResetWorks` | backend/src/auth/auth.service.ts:877-978 | A requested reset token can be used if and only if it has not expired, whatever other tokens exist with other secrets. |
| `CredentialProperties.ResetWorksOnce` | backend/src/auth/auth.service.ts:924-978 | A used reset token is refused for ever after, whatever calls happen in between, as long as its secret is not drawn again. |
| `CredentialProperties.ResetEndsSessions` | backend/src/auth/auth.service.ts:942-967 | After a completed reset its user has no live refresh token. |
| `CredentialProperties.WrongPasswordsLock` | backend/src/auth/auth.service.ts:318-337 | Starting from an active user without failed logins, n admitted wrong passwords in a row leave the account usable if and only if n is zero or below the policy's threshold. |
| `CredentialProperties.LockOutlastsItsTime` | backend/src/auth/auth.service.ts:294-337 | Once the threshold is reached every later login of the user fails, also with the right password and however long after the lock's time, in every run without a reset, an activation or another change of the user; a recovery by MFA reset does not end it. |
| `CredentialProperties.ResetReopens` | backend/src/auth/auth.service.ts:924-978 | A completed reset reopens the account: the next login with the right password succeeds at any time. |
| `CredentialProperties.CleanupKeepsRefresh` | backend/src/retention/retention.service.ts:347-351 | A cleanup, which deletes any expired or revoked tokens, changes the answer to no refresh at its time or later. |
| `CredentialProperties.CleanupKeepsReset` | backend/src/retention/retention.service.ts:357-361 | Nor the answer to any later password reset. |
| `CredentialProperties.ReplayIsNoticedUntilCleanup` | backend/src/auth/auth.service.ts:790-813 | Replaying a rotated token after the grace period is refused in any case, and revokes all tokens of the user if and only if no cleanup has deleted the token yet. |
| `CredentialProperties.CleanupHidesReplay` | backend/src/retention/retention.service.ts:347-351 | A cleanup may delete a rotated token at any age, and its replay then changes nothing. |
| `CredentialProperties.RunPersistsArtifacts` | backend/src/auth/auth.service.ts:192-219 | Tokens and challenges keep user, kind, secret and expiry through every run, a used one stays used and a deleted one stays deleted. |
| `CredentialProperties.RequestedCaseCanBeApproved` | backend/src/recovery/recovery.service.ts:100-213 | A requested case is approved by another administrator if and only if this happens in time, by neither requester nor target, and with a notification channel where the case type needs one. |
| `CredentialProperties.BreakGlassIgnoresRole` | backend/src/recovery/recovery.service.ts:100-136 | Whether a break-glass request is accepted does not depend on the role of its target. |
| `CredentialServices.AuthService.SignInUser` | backend/src/auth/auth.service.ts:367-404 | The steps after the password check leave the specified tables: a challenge where MFA is required, a session otherwise. |
| `CredentialServices.AuthService.LogIn` | backend/src/auth/auth.service.ts:294-404 | Limiter, account state, lock, password, failure counter and sign-in, in the source's order, leave exactly the specified tables, answer and limiter windows. |
| `CredentialServices.AuthService.RefreshSession` | backend/src/auth/auth.service.ts:781-844 | The steps of a refresh, including the revocation of all sessions on reuse, leave exactly the specified tables and answer. |
| `CredentialServices.AuthService.SignOutSession` | backend/src/auth/auth.service.ts:846-875 | As for RefreshSession, for logout. |
| `CredentialServices.AuthService.RequestPasswordReset` | backend/src/auth/auth.service.ts:877-922 | As for RefreshSession, for requesting a reset, with the attempt counted by the limiter; an unknown address is answered alike. |
| `CredentialServices.AuthService.CompletePasswordReset` | backend/src/auth/auth.service.ts:924-978 | As for RefreshSession, for completing a reset. |
| `CredentialServices.AuthService.CreateActivationForUser` | backend/src/auth/auth.service.ts:980-1015 | As for RefreshSession, for issuing an activation token. |
| `CredentialServices.AuthService.ActivateAccount` | backend/src/auth/auth.service.ts:1050-1118 | As for RefreshSession, for activation followed by sign-in. |
| `CredentialServices.AuthService.FinishMfaSetup` | backend/src/auth/auth.service.ts:433-474 | As for RefreshSession, for completing MFA setup with new backup codes. |
| `CredentialServices.AuthService.VerifyMfaChallenge` | backend/src/auth/auth.service.ts:476-506 | As for RefreshSession, for answering a challenge by code or backup code, with the limiter asked once the challenge was found and cleared on success. |
| `CredentialServices.AuthService.TurnOffMfa` | backend/src/auth/auth.service.ts:525-582 | As for RefreshSession, for disabling MFA, with the limiter asked for enrolled users only and cleared on success. |
| `CredentialServices.AuthService.Impersonate` | backend/src/auth/auth.service.ts:655-731 | As for RefreshSession, for starting an impersonation, which ends the actor's earlier ones. |
| `CredentialServices.RecoveryService.RequestCase` | backend/src/recovery/recovery.service.ts:100-136 | The checks in the source's order, the limiter's count, and the new case are the specified request. |
| `CredentialServices.RecoveryService.ApproveCase` | backend/src/recovery/recovery.service.ts:157-213 | The sequence of updates of an approval leaves exactly the specified tables and counts the attempt. |
| `CredentialServices.RecoveryService.RejectCase` | backend/src/recovery/recovery.service.ts:138-155 | As for ApproveCase, for rejecting. |
| `CredentialServices.RecoveryService.ExpireStaleCases` | backend/src/recovery/recovery.service.ts:84-98 | The loop over stale cases expires exactly those of the organisation that are pending and past their time. |
| `RateLimit.AtMostMaxPerWindow` | backend/src/recovery/recovery.service.ts:31-40 | With fixed settings and no clearing, the attempts admitted to any one window of a key never exceed the maximum. |
| `RateLimit.AtMostTwiceMaxPerInterval` | backend/src/auth/auth.service.ts:109-130 | Any half-open interval of one window length sees at most twice the maximum of admitted attempts on a key. |
| `RateLimit.LogIsWindowed` | backend/src/recovery/recovery.service.ts:31-40 | Admitted attempts lie in the window that admitted them, windows of a key do not overlap, and the stored count is the number of attempts the current window admitted. |
| `RateLimit.KeysAreIndependent` | backend/src/recovery/recovery.service.ts:31-40 | The window of a key depends on the attempts on that key alone. |
| `RateLimit.RateLimiter.Attempt` | backend/src/recovery/recovery.service.ts:31-40 | The update of the map in place admits exactly as specified and changes no other key. |
| `RateLimit.RateLimiter.Clear` | backend/src/auth/auth.service.ts:132-134 | Clearing forgets exactly one key. |
| `RateLimit.RecoveryLimits` | backend/src/recovery/recovery.service.ts:13-14 | The configured recovery limits always admit at least one attempt and last at least a minute. |
| `SyncDiagnostics.IncrementalPruningIsOnePruning` | mobile-app/src/syncDiagnostics.ts:119-146 | For times that do not decrease, the log pruned on every transition equals the whole history pruned once at the latest time. |
| `SyncDiagnostics.LogEndsInCurrentStatus` | mobile-app/src/syncDiagnostics.ts:113-146 | After any transition, whatever its time, the log is not empty, is within its cap, and ends in the step just recorded, whose status is the visit's. |
| `SyncDiagnostics.RetryCountsSyncingSteps` | mobile-app/src/syncDiagnostics.ts:119-146 | The retry count is the number of syncing steps ever taken, however much was pruned. |
| `SyncDiagnostics.PruneTwice` | mobile-app/src/syncDiagnostics.ts:113-117 | Pruning, adding an entry and pruning again is the same as adding it and pruning once, on a log in time order. |
| `SyncDiagnostics.PruningOutOfOrderLoses` | mobile-app/src/syncDiagnostics.ts:113-146 | For every policy there is a run whose log differs from its history pruned once: as many steps as the cap while the clock has fallen back behind the retention time, then one after it was set right, lose the entry of the creation. |
| `SyncDiagnostics.DroppedEntriesMatter` | mobile-app/src/syncDiagnostics.ts:113-117 | On a log of any order whose first entries are gone, adding a step and pruning gives the same as on the whole log if and only if the rest has cap - 1 recent entries or none of those gone is recent. |
| `SyncDiagnostics.PruneTwiceExactly` | mobile-app/src/syncDiagnostics.ts:113-117 | On a log of any order, pruning, adding a later entry and pruning again is the same as adding it and pruning once if and only if what the first pruning keeps fills the cap or the cap cost it no entry that is still recent. |
| `SyncDiagnostics.StepKeepsOnePruning` | mobile-app/src/syncDiagnostics.ts:119-146 | In a run whose log is its history pruned once, a further step no earlier than the last keeps that if and only if the same condition holds for the log and the history. |
| `SyncDiagnostics.ConfiguredPolicy` | mobile-app/src/syncDiagnostics.ts:10-18 | The configured cap and retention are always within their bounds. |
| `Base32.RoundTrip` | backend/src/auth/mfa.util.ts:9-44 | Decoding the unpadded base32 text of any byte string returns the byte string. |
| `Base32.DecodeIgnoresCase` | backend/src/auth/mfa.util.ts:5-7 | Changing the case of any of its letters does not change what a text decodes to. |
| `Base32.DecodeIgnoresPadding` | backend/src/auth/mfa.util.ts:5-7 | Any number of trailing padding characters does not change what a text decodes to. |
| `Base32.SecretsSurviveRetyping` | backend/src/auth/mfa.util.ts:5-44 | A generated secret typed in any case and with padding decodes to the bytes it was made of. |
| `Base32.GenerateBase32Secret` | backend/src/auth/mfa.util.ts:9-24 | The encoder loop computes the specified text. |
| `Base32.DecodeBase32` | backend/src/auth/mfa.util.ts:26-44 | The two decoder loops compute the specified bytes, and the error for an unknown character is never raised. |
| `Base32.AlphabetMeaning` | backend/src/auth/mfa.util.ts:3 | The alphabet, its characters and their values agree in both directions. |
| `Totp.CodeIsAccepted` | backend/src/auth/mfa.util.ts:62-76 | A code shown at t, typed with or without spaces, is accepted at every t' no further away than the window if and only if the window at t' does not reach before the epoch; otherwise verification raises the range error of the counter buffer. |
| `Totp.CodeIsAcceptedWithinThirtySeconds` | backend/src/auth/mfa.util.ts:62-76 | With the default window a code is accepted up to thirty seconds before and after it was shown, exactly for clocks at least thirty seconds past the epoch. |
| `Totp.VerifyTotp` | backend/src/auth/mfa.util.ts:62-76 | The loop accepts exactly if some code of the window matches and every earlier one could be computed, and refuses every token that is not six digits. |
| `Totp.VerdictIsUnique` | backend/src/auth/mfa.util.ts:62-76 | That description leaves one possible answer. |
| `Totp.CodeIsSixDigits` | backend/src/auth/mfa.util.ts:59 | A code is six digits, and its number is the truncated hash modulo a million. |
| `Totp.TruncationReadsFourBytes` | backend/src/auth/mfa.util.ts:52-57 | The truncated hash is the big-endian number in the four bytes that the last half-byte points at, without its top bit. |
| `Totp.StepsHashDifferently` | backend/src/auth/mfa.util.ts:47-49 | Two times are hashed from the same eight-byte message if and only if they are in the same step. |
| `Retention.RunsTakeBatches` | backend/src/retention/retention.service.ts:226-246 | With a fixed clock and no other writer, n due rows of an enabled type become max(0, n - k * batchSize) after k runs. |
| `Retention.RunsDrain` | backend/src/retention/retention.service.ts:226-246 | Nothing of the type is due any more exactly from the ceil(n / batchSize)-th run on. |
| `Retention.RunTakesOneBatch` | backend/src/retention/retention.service.ts:284-371 | One run takes one batch off what is due: every planned row is gone or no longer due afterwards. |
| `Retention.RunSparesTheRest` | backend/src/retention/retention.service.ts:284-371 | A row that is not due, out of scope or of an excluded type is there afterwards as it was, and a row that is new afterwards is the archived or redacted form of one that was due. |
| `Retention.RunsSpareTheRest` | backend/src/retention/retention.service.ts:284-371 | However often cleanup runs, such a row stays. |
| `Retention.PlannedAreFirst` | backend/src/retention/retention.service.ts:228-234 | The planned rows are the due ones with the smallest ids, as many as the batch allows. |
| `Retention.PlannedAreHit` | backend/src/retention/retention.service.ts:284-371 | The conditions that the transaction repeats beside the planned ids exclude no planned row, so the number cleaned is the number planned. |
| `Retention.CurrentPolicy` | backend/src/retention/retention.service.ts:52-64 | The batch size is always between 1 and 1000. |
| `Retention.Clean` | backend/src/retention/retention.service.ts:284-371 | One statement of the transaction leaves the specified table and counts the planned rows. |
| `Retention.RetentionService.RunCleanup` | backend/src/retention/retention.service.ts:204-419 | A call while another runs and a manual call without a reason change nothing; any other call cleans one batch of every enabled type, reports as done what it planned, and leaves the running flag as it was. |
| `Reports.OverviewAddsUp` | backend/src/reports/reports.service.ts:537-605 | The GPS counters, the sync counters and the disposition counters each sum to the number of visits, and the report calls itself synced exactly if every visit is. |
| `Reports.GetOverview` | backend/src/reports/reports.service.ts:521-605 | The loop leaves in every counter the number of visits with that property, in the set the addresses visited, and in the preview for each canvasser the summary of exactly that canvasser's visits. |
| `Reports.TrendsAddUp` | backend/src/reports/reports.service.ts:956-988 | The totals by day, by outcome, by time of day and by day of week each sum to the number of visits, as do the two disposition counters. |
| `Reports.GetTrendSummary` | backend/src/reports/reports.service.ts:945-988 | The loop leaves for every key the summary of exactly the visits with that key, and no other keys. |
| `Reports.GroupsAddUp` | backend/src/reports/reports.service.ts:956-988 | Whatever visits are grouped by, the visits counted in the entries of a table sum to the number of visits. |
| `Reports.ProductivityAddsUp` | backend/src/reports/reports.service.ts:689-780 | The visits of the canvassers' rows sum to the number of visits; their address counts sum to at least the number of addresses visited, and to exactly that number if and only if no address was visited by two canvassers. |
| `Reports.GetProductivity` | backend/src/reports/reports.service.ts:668-738 | The two loops leave a row for exactly the canvassers with a visit: the summary of their visits, with the ids and clipped minutes of their sessions added. |
| `Reports.MinutesSplitAtInstant` | backend/src/reports/reports.service.ts:448-460 | Cutting a range at an instant of it cuts the clipped minutes of any list of sessions: the parts sum to the whole. |
| `Reports.MinutesSplitAtMidnight` | backend/src/reports/reports.service.ts:448-460 | Cutting a range between an instant and the next one, as between two days, misses exactly one millisecond of every session that runs through the cut, and nothing else. |
| `ReportDays.FindsLocalTime` | backend/src/common/utils/timezone-policy.util.ts:78-107 | Where a zone has two offsets around a local time, the three rounds find an instant that shows it if and only if there is one; a local time that a clock change skips is missed by exactly the change. |
| `ReportDays.ZonedDateTimeToUtc` | backend/src/common/utils/timezone-policy.util.ts:78-107 | The loop computes the specified instant. |
| `ReportDays.DaysMeet` | backend/src/common/utils/timezone-policy.util.ts:126-144 | A day ends one millisecond before the next starts if and only if the zone's offset is the same at both. |
| `ReportDays.FixedZoneIsRegular` | backend/src/common/utils/timezone-policy.util.ts:126-144 | In a zone with a fixed offset, such as UTC, days follow one another without gap or overlap. |
| `ReportDays.DailyReportsAddUp` | backend/src/reports/reports.service.ts:448-460 | Reports day by day over any number of days add up to the report of the whole range, less one millisecond for every midnight in between and every session that runs through it. |
| `Reports.LoadingLosesNoMinutes` | backend/src/reports/reports.service.ts:299-308 | The sessions that the query leaves out have no minutes in the range. |
| `GeographyEffects.UpdateWrites` | backend/src/geographies/geographies.service.ts:167-187 | An accepted update gives the node every name, kind, order and active flag that the patch gives and the parent it names, keeps the rest, puts it one level below that parent, changes of other nodes only the depths below it, all by the same amount, and writes nothing else if the parent stays. |
| `GeographyEffects.UpdateSucceeds` | backend/src/geographies/geographies.service.ts:123-144 | An update is accepted if and only if the caller may address the node, the name is not blanked, and a parent named is a node of the organisation that is neither the node nor below it. |
| `GeographyEffects.CreateWrites` | backend/src/geographies/geographies.service.ts:87-111 | An accepted create adds one node with exactly the fields described, below the parent named, and leaves every other node as it was. |
| `GeographyEffects.CreateSucceeds` | backend/src/geographies/geographies.service.ts:73-100 | A create is accepted if and only if the caller has an organisation, the external id is well-formed and new there, the name is not blank, and the parent is a node of the organisation. |
| `GeographyEffects.UpdateErrors` | backend/src/geographies/geographies.service.ts:123-144 | Every refused update names a cause that is there. |
| `GeographyEffects.CreateErrors` | backend/src/geographies/geographies.service.ts:73-100 | Every refused create names a cause that is there. |
| `GeographyEffects.ListMeans` | backend/src/geographies/geographies.service.ts:48-71 | A list has exactly the nodes that the caller may address and that have the parent, the kind and the state that the filter asks for. |
| `GeographyEffects.ListErrors` | backend/src/geographies/geographies.service.ts:48-71 | A list is refused only to callers without an organisation, for a parent that they may not address, and for an empty text as the parent, and says so. |
| `TurfEffects.StartWrites` | backend/src/turfs/turfs.service.ts:783-818 | A start makes the turf in progress and nothing else of it, the holder's assignment working, and adds one active session of the canvasser from now on; a canvasser who has an open session gets that one, and nothing changes. |
| `TurfEffects.PauseWrites` | backend/src/turfs/turfs.service.ts:851-872 | A pause makes the turf and the active session paused and changes nothing else. |
| `TurfEffects.ResumeWrites` | backend/src/turfs/turfs.service.ts:905-944 | Resuming makes the turf in progress, the assignment working and the paused session active, and changes nothing else. |
| `TurfEffects.CompleteWrites` | backend/src/turfs/turfs.service.ts:983-1034 | Completing ends the session now, finishes the canvasser's assignment, completes the turf in the canvasser's name, and changes nothing else. |
| `TurfEffects.AssignWrites` | backend/src/turfs/turfs.service.ts:333-385 | An assignment makes the turf assigned, removes exactly the open assignments of the turf and of the canvasser, adds the new one, and changes nothing else. |
| `TurfEffects.ReopenWrites` | backend/src/turfs/turfs.service.ts:429-439 | Reopening makes the turf reopened and clears who completed it, and changes nothing else. |
| `TurfEffects.ArchiveWrites` | backend/src/turfs/turfs.service.ts:490-510 | Archiving makes the turf archived and removes its open assignments, and changes nothing else. |
| `TurfEffects.DeleteWrites` | backend/src/turfs/turfs.service.ts:564-600 | Deleting makes the turf archived and deleted, removes its open assignments, marks its addresses deleted, and changes nothing else. |
| `TurfEffects.SessionCallsSucceed` | backend/src/turfs/turfs.service.ts:759-983 | A start is accepted exactly for the holder of the turf, a pause, resume or completion exactly for who works on it in the status that it asks for. |
| `TurfEffects.AssignSucceeds` | backend/src/turfs/turfs.service.ts:298-331 | An assignment is accepted if and only if the canvasser is an active one of the organisation whom neither team nor region sets apart from the turf, the caller manages the turf, and nobody else works on it nor the canvasser elsewhere. |
| `TurfEffects.IdleCallsSucceed` | backend/src/turfs/turfs.service.ts:406-562 | Reopening, archiving and deleting are accepted exactly on a turf that the caller manages and nobody works on, with a reason where one is required. |
| `TurfEffects.SessionErrors` | backend/src/turfs/turfs.service.ts:759-983 | Every refused call on a session names a cause that is there. |
| `TurfEffects.TurfErrors` | backend/src/turfs/turfs.service.ts:298-562 | So does every refused assignment, reopening, archiving and deletion. |
| `ImportEffects.CountersAreDetermined` | backend/src/imports/imports.service.ts:470-679 | Decided from the tables before: the invalid count is the number of rows without an address; the rows whose household is already on the turf, or named by an earlier row of the group, are all skipped, merged or pending as the strategy says; every other row is imported. |
| `ImportEffects.DuplicateRow` | backend/src/imports/imports.service.ts:510-581 | A row whose household has a live address on the turf is skipped, stops the import, is merged into the first such address field by field, or is recorded as pending with that address as its candidate, under its own counter. |
| `ImportEffects.NewRow` | backend/src/imports/imports.service.ts:583-614 | A row whose household has none adds one live address with exactly the row's fields and is recorded and counted as created. |
| `ImportEffects.InvalidRow` | backend/src/imports/imports.service.ts:470-493 | A row without the texts of an address is recorded and counted as invalid and changes no table. |
| `ImportEffects.HouseholdIsFirstSame` | backend/src/imports/imports.service.ts:247-286 | A row belongs to the first live household of the organisation that its VAN household id, or else its VAN person id, or else its address names, and to a new one if there is none. |
| `ImportEffects.HouseholdWrites` | backend/src/imports/imports.service.ts:288-345 | Matching changes no other household; the row's is filled with what the row knows and it lacks, or added as the row describes it. |
| `ImportEffects.TurfNameMeans` | backend/src/imports/imports.service.ts:387 | A row goes to the turf it names, or else the fallback, or else "Imported Turf". |
| `ImportEffects.GroupsAreInOrder` | backend/src/imports/imports.service.ts:385-392 | Rows keep their order within a group, and groups are in the order of their first rows. |
| `ImportEffects.GroupNodeMeans` | backend/src/imports/imports.service.ts:415-431 | A group is placed at the first active node with the one external id it names, nowhere if it names none, and refused if it names two or one that no active node has. |
| `ImportEffects.GroupBegins` | backend/src/imports/imports.service.ts:432-468 | A group uses the first turf of its name in the import's scope, unless turfs are always created; otherwise it gets a new turf as the import describes it. |
| `ImportEffects.GroupEnds` | backend/src/imports/imports.service.ts:616-633 | A group that replaces memberships deletes exactly the live addresses of its turf whose households none of its rows named, unless they named none. |
| `ImportEffects.BatchWritten` | backend/src/imports/imports.service.ts:641-679 | The batch of a successful import has the scope of the import, its counters and results,. |
| `ImportEffects.BatchIsPlaced` | backend/src/imports/imports.service.ts:432-651 | The batch bears a geography node if and only if all its groups that are placed are placed at that node. |
| `ImportEffects.ImportErrorsTell` | backend/src/imports/imports.service.ts:378-528 | Every import that stops names a cause that is there. |
| `ImportEffects.ReviewWrites` | backend/src/imports/imports.service.ts:950-1090 | A review settles exactly its row as decided, moves one unit between the counters of its batch, merges the row's fields into the candidate where it is to be merged, and changes nothing else; the exact condition and the error are stated. |
| `ImportEffects.RedactionWrites` | backend/src/retention/retention.service.ts:303-312 | A redaction erases the raw data of every row of the chosen batches and nothing else. |
| `CredentialEffects.RefreshWrites` | backend/src/auth/auth.service.ts:781-844 | A refresh succeeds exactly for an unrevoked, unexpired token of a usable user; it revokes that token and adds one with the secret and expiry drawn, of the same user and lineage. A refused one revokes all tokens of the user if the token was rotated more than ten seconds before, and changes nothing otherwise. |
| `CredentialEffects.RotatedTokenWorks` | backend/src/auth/auth.service.ts:781-844 | Presenting the secret that a refresh handed out succeeds if and only if it has not expired and the user is usable. |
| `CredentialEffects.ChainOfRefreshes` | backend/src/auth/auth.service.ts:781-844 | Through any number of refreshes, each presenting in time what the one before handed out, every refresh succeeds, all tokens keep user and lineage, and of the chain exactly the last is not revoked. |
| `CredentialEffects.SignOutWrites` | backend/src/auth/auth.service.ts:846-875 | Signing out revokes exactly the token presented, if it is live. |
| `CredentialEffects.SignedOutStaysOut` | backend/src/auth/auth.service.ts:846-875 | A token signed out is refused after any sequence of calls, as long as no other token has its secret. |
| `CredentialEffects.LoginWrites` | backend/src/auth/auth.service.ts:294-404 | What every login leaves: a failed one raises the counter or locks the account, an accepted one clears both and gives a session or a challenge; the exact condition is stated. |
| `CredentialEffects.SignInWrites` | backend/src/auth/auth.service.ts:367-404 | Canvassers get a session of their own lineage; administrators and supervisors a challenge, to verify or to set up MFA. |
| `CredentialEffects.RequestResetWrites` | backend/src/auth/auth.service.ts:877-922 | A request uses up the user's open reset tokens and adds one with the secret and expiry drawn; an unknown address changes nothing. |
| `CredentialEffects.CompleteResetWrites` | backend/src/auth/auth.service.ts:924-978 | A reset is completed exactly with an unused, unexpired reset token of a known user; it puts the user back in use, uses that token, revokes the user's tokens, and changes nothing else. |
| `CredentialEffects.CreateActivationWrites` | backend/src/auth/auth.service.ts:980-1015 | An activation token is issued to exactly the user named, in place of an open one. |
| `CredentialEffects.ActivateWrites` | backend/src/auth/auth.service.ts:1050-1118 | An activation is accepted exactly with an unused, unexpired activation token of a known user; it puts the user in use, uses the token, and signs the user in. |
| `CredentialEffects.CompleteMfaSetupWrites` | backend/src/auth/auth.service.ts:433-474 | A setup is completed exactly with a good challenge, a stored secret and a right code; it enables MFA, replaces the user's backup codes by those drawn, and starts a session. A wrong code changes nothing. |
| `CredentialEffects.InitializeMfaWrites` | backend/src/auth/auth.service.ts:406-431 | Setting up starts exactly with a good challenge of a known user, and gives the user a secret unless one is waiting. |
| `CredentialEffects.VerifyMfaWrites` | backend/src/auth/auth.service.ts:476-506 | A challenge is met exactly if it is good and the attempt is admitted with a right code or an unused backup code of the user, which is then used; a session starts. Anything else changes nothing. |
| `CredentialEffects.DisableMfaWrites` | backend/src/auth/auth.service.ts:525-582 | Disabling succeeds exactly for an enrolled user with the right password and code; it erases secret, backup codes and open challenges of that user alone. |
| `CredentialEffects.StartImpersonationWrites` | backend/src/auth/auth.service.ts:655-731 | An administrator's impersonation of another user of the organisation, not an administrator, ends the actor's earlier ones and adds one. |
| `CredentialEffects.StopImpersonationWrites` | backend/src/auth/auth.service.ts:733-779 | Exactly an open impersonation of the actor can be stopped, and only that one ends. |
| `CredentialEffects.RequestRecoveryWrites` | backend/src/recovery/recovery.service.ts:100-136 | A request is accepted under exactly the stated conditions and adds one pending case as described. |
| `CredentialEffects.ApproveSucceeds` | backend/src/recovery/recovery.service.ts:157-177 | The exact condition of an approval, on the fields of case, reviewer and target. |
| `CredentialEffects.ApproveWrites` | backend/src/recovery/recovery.service.ts:178-213 | What an approval writes into case, user, tokens, artefacts, impersonations and codes, row by row. |
| `CredentialEffects.RejectRecoveryWrites` | backend/src/recovery/recovery.service.ts:138-155 | A rejection is accepted for exactly a pending case of the reviewer's organisation, with a reason, and changes that case alone. |
| `CredentialEffects.ExpireStaleWrites` | backend/src/recovery/recovery.service.ts:84-98 | Exactly the pending cases of the organisation that are past their time expire. |
| `CredentialEffects.PurgeWrites` | backend/src/retention/retention.service.ts:347-371 | A cleanup deletes only chosen tokens and artefacts that are expired, revoked or used, and used backup codes. |
| `CredentialEffects.UnknownSecretsDoNothing` | backend/src/auth/auth.service.ts:781-978 | A secret that no token or challenge has is refused by every call but the sign-out, and changes nothing. |
| `CredentialEffects.LoginErrors` | backend/src/auth/auth.service.ts:294-365 | Every refused login names a cause that is there. |
| `CredentialEffects.MfaErrors` | backend/src/auth/auth.service.ts:406-506 | So does every refused MFA call. |
| `CredentialEffects.TokenErrors` | backend/src/auth/auth.service.ts:924-1118 | A token or challenge that is refused is not good; a good one is refused only if its user is gone, or for a wrong code. |
| `CredentialEffects.ReviewErrors` | backend/src/recovery/recovery.service.ts:138-177 | So does every refused review of a case. |
| `CredentialEffects.RequestErrors` | backend/src/recovery/recovery.service.ts:100-128 | So does every refused request for recovery. |
| `Totp.CodeReadsHash` | backend/src/auth/mfa.util.ts:46-60 | For every key and time in range there is one eight-byte message whose number is the step, such that the code of the key's base32 text is the six-digit number read off HMAC(key, message) at its last half-byte, without the top bit, modulo a million. |
| `Totp.OnlyCodesAreAccepted` | backend/src/auth/mfa.util.ts:62-76 | A token is accepted only if, with its spaces removed, it is the code of the same secret at one of the steps of the window. |
| `Totp.OthersAreRefused` | backend/src/auth/mfa.util.ts:63-66 | A token that is not six digits is refused at any time, also where no code can be computed. |
| `Totp.SpacesDoNotMatter` | backend/src/auth/mfa.util.ts:63 | Exactly the white space of ECMAScript, anywhere in a typed code, is taken out before it is compared. |
| `Base32.EncodingIsTheNumber` | backend/src/auth/mfa.util.ts:9-24 | The text of a byte string, read as a number in base 32, is the big-endian number of the bytes with the last symbol filled up with zero bits, and the text has the least length for it. |
| `Base32.DecodeIgnoresOthers` | backend/src/auth/mfa.util.ts:5-7 | A character outside the alphabet, anywhere but among trailing padding, does not change what a text decodes to. |
| `RateLimit.RefusedOnlyWhenFull` | backend/src/recovery/recovery.service.ts:31-40 | An attempt is refused if and only if a window that is open at its time has already admitted the maximum; so the first ones of a window are always admitted. |
| `SyncDiagnostics.PruningKeepsDays` | mobile-app/src/syncDiagnostics.ts:113-117 | An entry survives pruning exactly if it is at most the retention days old, counted in days of 86,400,000 milliseconds, where the cap does not cost it. |
| `SyncDiagnostics.ClassificationMeans` | mobile-app/src/syncDiagnostics.ts:90-111 | Which HTTP status gives which error category and which dependency state. |
| `SyncDiagnostics.NewVisitIsPending` | mobile-app/src/syncDiagnostics.ts:20-30 | A new visit is pending, was never attempted, and its log has the one entry of its creation. |
| `SyncDiagnostics.StepWrites` | mobile-app/src/syncDiagnostics.ts:119-146 | What a step writes into every field of the visit's diagnostics. |
| `Retention.NotDueYet` | backend/src/retention/retention.service.ts:230-244 | A row out of the scope, or whose time has not come by its own dates, is spared by every run. |
| `Retention.DueIsTaken` | backend/src/retention/retention.service.ts:230-244 | And a row in scope whose time has come does not stay as it was once a batch reaches to it. |
| `Retention.RowsAfterRun` | backend/src/retention/retention.service.ts:284-371 | A run deletes no user, visit or batch: each stays as it was or, if its time has come, is an archived user, a visit without content and purge date, or a batch whose own content and that of each of its rows is gone, and is otherwise as it was. Rows of the other types stay as they were or are deleted. |
| `Reports.MinutesAreShared` | backend/src/reports/reports.service.ts:448-460 | A session counts for the time that it and the range have in common, in minutes of sixty thousand milliseconds. |
| `Reports.LoadedSharesAnInstant` | backend/src/reports/reports.service.ts:299-308 | A report loads exactly the sessions that have an instant in common with its range. |
| `ReportCounts.GpsMeans` | backend/src/reports/reports.service.ts:543-556 | The counter of a GPS status is the number of visits with that status. |
| `ReportCounts.SyncMeans` | backend/src/reports/reports.service.ts:558-574 | The counter of a sync status is the number of visits with that status. |
| `ReportCounts.CountsMean` | backend/src/reports/reports.service.ts:538-586 | The other counters are the numbers of visits with contact, override and revisit, and the addresses are those of the visits. |
| `ReportCounts.PreviewMeans` | backend/src/reports/reports.service.ts:588-604 | The preview has exactly the canvassers with a visit, with the number of their visits and contacts and the addresses they visited. |
| `ReportCounts.DispositionsMean` | backend/src/reports/reports.service.ts:579-583 | The two disposition counters are the numbers of visits with a final outcome and without. |
| `ReportCounts.DayMeans` | backend/src/reports/reports.service.ts:956-988 | A day has an entry exactly if it has a visit, with the number of its visits and contacts and the addresses visited. |
| `ReportCounts.TotalsMean` | backend/src/reports/reports.service.ts:956-988 | The other tables hold the numbers of visits with an outcome, at a time of day, and on a day of the week. |
| `ReportCounts.RowMeans` | backend/src/reports/reports.service.ts:689-738 | A canvasser has a row exactly with a visit; it holds the number of visits and the minutes of the canvasser's own sessions. |
| `ReportCounts.RowCountsKinds` | backend/src/reports/reports.service.ts:689-738 | It holds the numbers of the canvasser's visits with contact, final disposition and revisit. |
| `ReportCounts.RowCountsGps` | backend/src/reports/reports.service.ts:689-738 | It holds the numbers of those visits that are verified and flagged by GPS. |
| `ReportCounts.RowNames` | backend/src/reports/reports.service.ts:689-738 | It holds the addresses of those visits, and the sessions named by them or held by the canvasser. |
| `ReportDays.FixedZoneDay` | backend/src/common/utils/timezone-policy.util.ts:126-144 | Where clocks never change a day starts at midnight of the zone and ends 86,399,999 milliseconds later. |

## Left out

- Interleavings of the statements of two calls: every call is one step, also where the source runs outside a transaction.
- Audit log rows, notification delivery, HTTP controllers and guards, Prisma itself, and metadata columns.
- Comparing password hashes, JWT contents, step-up MFA and MFA status: whether a password matches is an input of a login.
- CredentialServices.AuthService.SignInUser: the steps before it are those of LogIn, which calls it.
- CredentialServices.AuthService.LogIn: takes whether the password matches as an input, and does not model the time of first activation.
- CredentialServices.AuthService.FinishMfaSetup: takes whether the code was accepted as an input; the link to the codes is in the module on one-time codes.
- Changing the limiter's settings while it runs: the limits of one limiter are fixed.
- CredentialServices.AuthService.TurnOffMfa: takes whether password and code were accepted as an input.
- CredentialServices.AuthService.VerifyMfaChallenge: takes whether the code was accepted as an input; the link to the codes is in the module on one-time codes.
- Hashing of tokens: a stored hash is compared as the secret it came from, so lookups assume that distinct secrets have distinct hashes.
- Account removal, role changes and other writers of users appear as one step that replaces a user by any other.
- Turf listing, scope updates and address views; coordinates and time stamps that no guard reads.
- Address requests, visits and the deletion of turfs write addresses by other rules, so uniqueness per turf and household is stated for imports, reviews and redactions only.
- Which batches are due for redaction: a redaction may choose any, so the run theorems cover every choice.
- Parsing of CSV, column mapping, profiles, policies and address normalisation: an import starts from rows whose columns are resolved.
- ImportService.ImportsService.Import: file names, checksums, stored CSV text, reason codes and purge dates of batches and addresses are not modelled.
- CSV preview and the listing of review rows: they change nothing.
- Base32.DecodeIgnoresCase: upper-casing is that of ASCII letters; other characters that some alphabets upper-case into ASCII letters are not modelled.
- Totp.CodeIsAccepted: times are integers of milliseconds, and the division that gives the counter is exact, not floating point.
- The text of the provisioning URI: plain concatenation.
- Retention.RetentionService.RunCleanup: the ten statements of the transaction, which have one shape, are one loop over the entity types; database errors and the schedule timer are not modelled.
- Retention.CurrentPolicy: whether a setting is a safe integer is decided before, and the set of excluded types is given, not parsed.
- The contents of rows of import and export batches are kept with their batch, so their counts are not reported separately.
- Reports.GetProductivity: rates, averages, rounding to two decimals and sorting by name are not modelled.
- Reports.GetOverview: the number of canvassers with an open session, recent audit rows, and cutting the sorted preview after five rows are not modelled.
- Calendar arithmetic: a day is its number since the epoch, and a zone is given by its offset at every instant; filters that are not plain dates are taken as instants.
- GPS exception, audit, conflict and export reports, and the queries that select visits: filters copied field by field.
- Normalising and exporting stored diagnostics: reloading may drop every old entry, so the pruning theorem is about transitions.
- Assigning users and turfs to geography nodes: one field each.
- Retention.RowsAfterRun: a user's status and active flag, which archiving also sets, are not fields of the model, and the erased fields of a visit are one content.
