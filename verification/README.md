# Waiting, sharing and activating in n8n: a verified model

The project models the parts of n8n in which several actors change shared state, and proves what
every run of them keeps. `dafny verify dfyconfig.toml` checks all of it.

- **ResumeProtocol, ChildResults.** A waiting execution is a database row. Poll timers, finishing
  child executions and several processes race to resume it; the one safeguard is an update that is
  conditional on the status. The steps of all attempts interleave arbitrarily. The history is a log
  of resumes, refusals, cancellations and subscriptions, and a *period* is one stay in status waiting.
- **WaitTracker.** The timers that set off those attempts, as a class.
- **ActiveExecutions.** The table of one process, as a class: entries with a promise that settles
  once, a settle handler that removes by id, concurrency slots, and the shutdown sweep.
- **CredentialTypes, CredentialsOverwrites.** A list that grows while it is walked; a memoised,
  order-dependent, in-place merge read through a second merge.
- **ReplaceCredentials, ConnectionPool.** Two caches against the simple thing.
- **WebhookRegistration, ActivationQueue, LeaderTriggers.** Workflow activation: roll-back, retries
  with a growing wait, and triggers that belong to the leader.
- **Deadlines, Flatten, FuzzyCompare** (with **Json**). Smaller algorithms.

Each stateful module has the same layout: a `State`, a function per operation, `Step` over events,
an invariant, lemmas about single steps and then about whole runs, and, where the source keeps the
state in an object, a class whose methods are proved to compute those functions. A loop over a
dictionary picks any key that is left, so its contract holds for every order of keys. Processes,
clocks and the database appear as events and parameters.

## Where the code differs from what is said about it

- `storeWebhook` (packages/cli/src/webhooks/webhook.service.ts:128-138) upserts on method and path.
  The comment in `addWebhooks` and its error for a taken path expect a failing insert. The model
  follows the code: rows of other workflows are kept exactly when no written key is theirs.
- `addWebhooks` is all-or-nothing for the workflow's own rows only as far as its loop goes. When
  filling the cache throws after the loop, the method throws and every row stays.
- The child results of a waiting parent are said to be those of one child. That holds of every win
  exactly when no attempt is stale: none holds other data to write or to start from, and no child that
  is past its write, or skipped it, will find a row that no child has written.
- The wait tracker is meant to keep one timer per execution. It does so exactly as long as no child
  starts an execution that has a timer. After a step-down it keeps the ids whose timers it cleared.
- Only the leader is meant to hold triggers. An activation reads `isLeader` and starts its triggers
  later, and a close that throws ends the step-down; these are the two exceptions.
- A takeover by an instance whose polling interval is still alive, because a step-down came before its
  handler was registered, leaves an interval that nothing clears any more.
- A resume that loses the race keeps the concurrency slot it took.

## Assumptions

- ResumeProtocol: the conditional update is one atomic step. The engine of a resumed execution
  starts after the winner's `setRunning`. A cancellation may hit any unfinished row.
- ActiveExecutions: the settle handler of an entry runs once, after its promise has settled. "Holding
  a slot" is stated by that handler: between settling and the handler the slot is still held. Entries
  replaced by a resume while unsettled are kept as objects, since their handlers still count.
- ActivationQueue: retries are atomic and there is one main instance. LeaderTriggers: there is at most
  one leader at a time, and an instance loses its role before its step-down handler runs.
- CredentialTypes, CredentialsOverwrites: `extends` is acyclic, and the two registries that the source
  consults agree on it. Nearest-ancestor resolution needs one parent per type, since with several the
  two merges order siblings differently; the laws for several parents speak of inheritance paths.
- ReplaceCredentials: the store does not change during a run, and ids are unique.
- ConnectionPool: distinct options have distinct keys. Time does not run backwards.
- Deadlines: the configured maximum is positive; starts are not negative.
- Flatten: keys contain no dots. FuzzyCompare: conversions between types are parameters.

## Model

| member | source | states |
|---|---|---|
| `ResumeProtocol.ResumedOncePerPeriod` | packages/cli/src/active-executions.ts:85-108 | Over every run, with any number of processes, timers and finishing children interleaved step by step, a waiting period of a row is resumed at most once and at most one subscription to wake the parent is made for it. |
| `ResumeProtocol.RefusedLostToOneWinner` | packages/cli/src/active-executions.ts:98-107 | Every attempt refused in a waiting period was refused after that period had ended, and the end is unique; unless the row was canceled, it is one resume by another attempt. |
| `ResumeProtocol.FirstToContendWins` | packages/cli/src/active-executions.ts:98-107 | A row is in status waiting exactly while its current period has not ended; the next attempt to reach the conditional update wins exactly then and is refused otherwise. So if anybody contends, somebody wins. |
| `ResumeProtocol.OnlyWinnersAct` | packages/cli/src/active-executions.ts:85-108 | Apart from the winning update and the launch of the winner, a step of an attempt leaves every status, the tables of active executions and the subscriptions as they were; a lost or rejected attempt takes no further step. |
| `ResumeProtocol.LosersNeverSubscribe` | packages/cli/src/wait-tracker.ts:130-167 | At the end of any run, an attempt that did not win owns no resume and no subscription. |
| `ResumeProtocol.TablesHoldWinners` | packages/cli/src/active-executions.ts:97-121 | Whatever entered a table of active executions during a run belongs to a resume in the log, made by an attempt of that same process. |
| `ResumeProtocol.WokenAreNamed` | packages/cli/src/wait-tracker.ts:147-167 | In every run, whoever is woken is the parent that the data of the waker's only win name, and that they do not say to leave alone. |
| `ResumeProtocol.LaunchMeans` | packages/cli/src/wait-tracker.ts:147-150 | A winner sets its row running and subscribes, once, for the parent that the data it started from name, and for nobody if they name none or say to leave it alone. |
| `ResumeProtocol.WakeMeans` | packages/cli/src/wait-tracker.ts:151-166 | A run that completed adds exactly one child attempt on the subscribed parent, carrying that run's output; a missing or waiting run, and one whose results throw, add none. |
| `ResumeProtocol.CascadeStep` | packages/cli/src/wait-tracker.ts:147-167 | Every step keeps: winners and subscribers hold what the log says they won with, and nobody wins twice. |
| `ResumeProtocol.ReadMeans` | packages/cli/src/workflow-helpers.ts:284-303 | Only a child with output whose parent is waiting with something on its stack goes on to write, and what it will write is that data with the item on top replaced. |
| `ResumeProtocol.WriteMeans` | packages/cli/src/workflow-helpers.ts:305-308 | The write touches the data of the parent's row alone, whatever its status is by then. |
| `ResumeProtocol.FindMeans` | packages/cli/src/wait-tracker.ts:101-128 | A missing, finished or unsaved execution is rejected; any other is taken on with its saved data. |
| `ResumeProtocol.ContendMeans` | packages/cli/src/active-executions.ts:98-121 | A win sets the row running with the data held and enters the execution in the winner's table; a loss changes nothing but the log. |
| `ChildResults.OutputMeans` | packages/cli/src/workflow-helpers.ts:22-55 | The output of a run is that of the last run of the last node, or in a manual run its pinned items, numbered; nothing without a node that has run. The lookup throws exactly for a pinned node without runs. |
| `ResumeProtocol.StepKeeps` | packages/cli/src/wait-tracker.ts:97-167 | Each of the six kinds of step keeps the protocol invariant: periods end once, refusals come after ends, only winners subscribe, rows and attempts agree with the history. |
| `ResumeProtocol.RunKeeps` | packages/cli/src/wait-tracker.ts:97-167 | The invariant holds after every run. |
| `ResumeProtocol.ReadInPeriod` | packages/cli/src/workflow-helpers.ts:284-303 | A child that reads its parent in the period prepares a write that is the saved state with exactly its own output on the stack head, even when other children wrote before it. |
| `ResumeProtocol.PeriodStep` | packages/cli/src/workflow-helpers.ts:277-309 | Every step keeps: the waiting row is the saved state with either the original stack head or one child's complete output on it, and attempts hold or will find such data. |
| `ResumeProtocol.PeriodDataDelivered` | packages/cli/src/workflow-helpers.ts:277-309 | Both directions, once for all attempts and once for children with output alone: in every continuation each win of the period starts from the saved state, and each child's win with exactly one finished child's output on the stack head, if and only if no attempt on its way is stale, that is, holds or will find anything else. |
| `ResumeProtocol.StaleDataWins` | packages/cli/src/workflow-helpers.ts:284-308 | The failing family, constructed for every stale attempt, child or timer: it can write what it holds, read it back and win with it. |
| `ResumeProtocol.StaleChildArises` | packages/cli/src/workflow-helpers.ts:277-309 | Stale attempts are real: from every start with a waiting row there is a run in which a child reads it, a timer resumes it and it waits again, after which the child is stale, whenever the new data differ in more than the input of the stack head. |
| `ResumeProtocol.FreshAttemptsDeliver` | packages/cli/src/workflow-helpers.ts:277-309 | The guarantee for the usual case: every attempt on the row has yet to read it. |
| `ChildResults.HeadOverwrites` | packages/cli/src/workflow-helpers.ts:293-303 | Replacing the stack head touches nothing else, and the last replacement decides it: results of two children are never mixed. |
| `WaitTracker.StepKeeps` | packages/cli/src/wait-tracker.ts:43-99 | Every operation keeps the timer table consistent; starting from a state in which the table knows every armed timer, a step loses one exactly when a child starts an execution that has a timer. |
| `WaitTracker.OneTimerPerExecution` | packages/cli/src/wait-tracker.ts:43-99 | In every run from a state whose table knows its timers: no execution ever has two armed timers, now or after whatever the next poll finds, if and only if no child starts an execution that has a timer. |
| `WaitTracker.OneInterval` | packages/cli/src/wait-tracker.ts:43-57 | In every run from a state whose only interval, if any, is the main timer: at most one interval is ever alive if and only if no takeover comes while one is. |
| `WaitTracker.LostIntervalStays` | packages/cli/src/wait-tracker.ts:171-174 | After such a takeover the earlier interval polls on, whatever step-downs and takeovers follow. |
| `WaitTracker.OrphanMakesTwo` | packages/cli/src/wait-tracker.ts:73-99 | The failing family: after every such start, a poll that finds the execution waiting again arms a second timer for it. (`TwoTimers` is such a run from the initial state.) |
| `WaitTracker.StepDownSilences` | packages/cli/src/wait-tracker.ts:170-181 | After a step-down exactly the timers the table had lost are still armed; none is, if and only if the table knew them all. |
| `WaitTracker.StepMutes` | packages/cli/src/wait-tracker.ts:73-99 | An execution that is in the table without a timer leaves that condition exactly when it is started by a child or stopped. |
| `WaitTracker.StepDownMutes` | packages/cli/src/wait-tracker.ts:170-181 | Since the entries stay when the timers are cleared, the executions in the table of a leader that steps down are never armed again by later takeovers and polls of that process, in any run that neither starts nor stops them from elsewhere. |
| `WaitTracker.NeverLate` | packages/cli/src/wait-tracker.ts:47-86 | In every run that neither starts, stops nor fires the execution and has no step-down, with polls at most sixty seconds apart: once a poll has found the row due within seventy seconds, it is armed for exactly its own time, or for the first poll if that came later; before that it is not armed. |
| `WaitTracker.PollMeans` | packages/cli/src/wait-tracker.ts:59-86 | A poll adds exactly the executions with a row that has not crashed and is due within seventy seconds, each armed for that row's time, or for now if it has passed; what was in the table stays as it was. |
| `WaitTracker.WaitTracker.GetWaitingExecutions` | packages/cli/src/wait-tracker.ts:59-87 | The loop does just that. |
| `WaitTracker.WaitTracker.StartTracking` | packages/cli/src/wait-tracker.ts:48-57 | The table stays consistent; the new interval is the only one alive exactly when none was before. |
| `WaitTracker.WaitTracker.OnTimer` | packages/cli/src/wait-tracker.ts:81-83 | The table stays consistent and, if it knew its timers, still does; no timer for the execution is left. |
| `WaitTracker.WaitTracker.StopExecution` | packages/cli/src/wait-tracker.ts:89-95 | The entry and its timer go, and nothing else. If the table knew its timers, no timer for the execution is left. |
| `WaitTracker.WaitTracker.StartExecution` | packages/cli/src/wait-tracker.ts:97-99 | If the table knew its timers, no timer for the execution is left exactly when it had none: the entry goes and the timer stays. |
| `WaitTracker.WaitTracker.StopTracking` | packages/cli/src/wait-tracker.ts:171-178 | The loop clears the interval and the timers of all entries; the entries stay. If the table knew its timers, none is left armed; no interval is left exactly when the main timer was the only one. |
| `ActiveExecutions.SlotAccounting` | packages/cli/src/active-executions.ts:80-108 | In every reachable state with concurrency control on, whatever overlaps: slots taken minus slots released are the entries ever created whose settle handler has not run, plus adds past `throttle`, plus adds that threw after it. |
| `ActiveExecutions.TableEntries` | packages/cli/src/active-executions.ts:110-138 | After a run in good order, an entry in the table whose handler has run has settled with status waiting. |
| `ActiveExecutions.RunKeeps` | packages/cli/src/active-executions.ts:110-138 | The table stays sound throughout a run if and only if every event comes in good order. |
| `ActiveExecutions.SlotsStep` | packages/cli/src/active-executions.ts:80-138 | Each operation keeps that balance, in good order or not. |
| `ActiveExecutions.HandlerRemovesOwn` | packages/cli/src/active-executions.ts:123-138 | In a sound state the settle handler, which removes by id, removes its own entry or none, never one that took its place. |
| `ActiveExecutions.HandlerRemovesOther` | packages/cli/src/active-executions.ts:110-138 | The excluded case: a resume let through between the settling of an earlier entry and its handler. That handler then takes the new, running entry out of the table. |
| `ActiveExecutions.LeavingArises` | packages/cli/src/active-executions.ts:85-138 | That case arises in a run from the start, in every mode: an execution finishes while its own resume is past `throttle`, and its handler leaves the resumed execution running without a place in the table. |
| `ActiveExecutions.StepKeepsExactly` | packages/cli/src/active-executions.ts:110-138 | An operation keeps the state sound (a table entry is unsettled, waits for its handler, or has settled with status waiting; slots balance) if and only if it is neither a resume let through while an earlier entry of the execution is leaving, nor a status other than waiting set on an entry whose handler has run. |
| `ActiveExecutions.SurvivesResumes` | packages/cli/src/active-executions.ts:110-121 | `startedAt` and the response promise survive any number of wait and resume cycles, in every run, as long as the id stays in the table and no new response promise is attached. |
| `ActiveExecutions.ShutdownDrains` | packages/cli/src/active-executions.ts:280-314 | After the sweep and the handlers it sets off exactly the survivors remain: nobody in regular mode with cancel-all; otherwise, from a state where every handler has run, exactly the entries with no response promise and a status neither waiting nor new in a plain shutdown. |
| `ActiveExecutions.InOrder` | packages/cli/src/active-executions.ts:288-300 | The order in which the sweep visits the ids makes no difference. |
| `ActiveExecutions.ActiveExecutions.BeginAdd` | packages/cli/src/active-executions.ts:80-88 | A slot is taken exactly if the mode is limited and the control is on; table and entries stay. |
| `ActiveExecutions.ActiveExecutions.AttachWorkflowExecution` | packages/cli/src/active-executions.ts:149-151 | Attaches the engine to the entry, or reports an unknown id and changes nothing. |
| `ActiveExecutions.ActiveExecutions.AttachResponsePromise` | packages/cli/src/active-executions.ts:153-158 | The same for the response promise. |
| `ActiveExecutions.ActiveExecutions.SetStatusOf` | packages/cli/src/active-executions.ts:271-273 | The same for the status, and exactly when a sound state stays sound. |
| `ActiveExecutions.ActiveExecutions.SweepOne` | packages/cli/src/active-executions.ts:290-299 | One turn of the sweep: the id stays in the table exactly when it is to remain, settled if it was cancelled; otherwise entries are as they were. Nothing else changes and a sound state stays sound. |
| `ActiveExecutions.ActiveExecutions.FinishAdd` | packages/cli/src/active-executions.ts:90-121 | After a refused update nothing enters the table and no slot comes back; otherwise the new entry is running and unsettled, started now or with the start time and response promise of the entry it replaces. A sound state stays sound exactly when no earlier entry is leaving. |
| `ActiveExecutions.ActiveExecutions.StopExecution` | packages/cli/src/active-executions.ts:175-201 | A waiting entry is only removed; of any other the engine is cancelled, if there is one, and the promise rejected, unless settled. Nothing else changes and a sound state stays sound. |
| `ActiveExecutions.ActiveExecutions.FinalizeExecution` | packages/cli/src/active-executions.ts:204-223 | Resolves the promise unless it is settled; nothing for an unknown id. |
| `ActiveExecutions.ActiveExecutions.FinallyHandler` | packages/cli/src/active-executions.ts:123-138 | Gives the slot back, then drops the engine of a waiting entry or removes the entry. |
| `ActiveExecutions.ActiveExecutions.SweepEntries` | packages/cli/src/active-executions.ts:288-300 | The loop of `shutdown` computes the sweep entry by entry, in any order of keys, and reports exactly the cancelled ids. |
| `ActiveExecutions.ActiveExecutions.ShutdownSweep` | packages/cli/src/active-executions.ts:280-302 | Concurrency control is off in regular mode. Cancelled are exactly the entries with a response promise and, in regular mode with cancel-all, all others; of these only the waiting leave the table at once, and of the rest the waiting and the new. |
| `CredentialTypes.GetParentTypes` | packages/cli/src/credential-types.ts:26-38 | Terminates on every acyclic registry; the result is, as a set, exactly the strict ancestors; each listed type is a parent of the type itself or of one listed earlier; on a single-parent chain first occurrences come nearest first. |
| `CredentialTypes.Walk` | packages/cli/src/credential-types.ts:26-38 | The loop over the list that grows while it is iterated returns the list that the level-by-level specification describes. |
| `CredentialTypes.WalkLevels` | packages/cli/src/credential-types.ts:31-35 | The same for any function from a type to its list, as long as the walk of the prefix comes to an end. |
| `CredentialTypes.WalkQueue` | packages/cli/src/credential-types.ts:31-35 | Walking a list passes over a prefix and then goes on with what the prefix appended behind the rest: why the loop and the recursion by levels agree. |
| `CredentialTypes.ParentListIsAncestors` | packages/cli/src/credential-types.ts:26-38 | Membership in the list is reachability over `extends` in one or more steps. |
| `CredentialTypes.ParentListFollowsChain` | packages/cli/src/credential-types.ts:26-38 | With one parent per type the list without repetitions is the chain of ancestors, nearest first. |
| `CredentialTypes.ParentListGuided` | packages/cli/src/credential-types.ts:31-35 | Every listed type was led to by a child of it listed earlier. |
| `CredentialTypes.ParentHasFewerAncestors` | packages/cli/src/credential-types.ts:31-35 | In an acyclic registry the set of strict ancestors shrinks from a type to its parent. |
| `CredentialTypes.RankedIsAcyclic` | packages/cli/src/credential-types.ts:26-38 | A registry on which some number falls along `extends` has no cycle: with the previous row, acyclic and well founded mean the same. |
| `CredentialsOverwrites.LookupIsPlain` | packages/cli/src/credentials-overwrites.ts:203-210 | With one parent per type, a lookup in the partly merged data is plain nearest-ancestor-or-self resolution of the raw data, key by key. |
| `CredentialsOverwrites.LookupInherits` | packages/cli/src/credentials-overwrites.ts:203-210 | For any number of parents: a lookup has exactly the keys that the type or an ancestor defines, each with a value inherited along a path without a definition in between. |
| `CredentialsOverwrites.InheritsIsPlain` | packages/cli/src/credentials-overwrites.ts:171-201 | With one parent per type inheritance along paths has one answer, and it is plain resolution. |
| `CredentialsOverwrites.ReloadKeepsLookups` | packages/cli/src/credentials-overwrites.ts:56-76 | Merging the data that a merge stored, in whatever visiting orders, changes no lookup. |
| `CredentialsOverwrites.MergedTwice` | packages/cli/src/credentials-overwrites.ts:115-143 | What a second merge adds to the result of a first is still inherited in the raw data. |
| `CredentialsOverwrites.UntouchedIsInOrder` | packages/cli/src/credentials-overwrites.ts:171-201 | A known type that shares no lineage with a type visited before is in order. |
| `CredentialsOverwrites.ParentsFirstIsInOrder` | packages/cli/src/credentials-overwrites.ts:171-201 | When all ancestors are in the data and come first, every type is in order. |
| `CredentialsOverwrites.CoveredIsPlain` | packages/cli/src/credentials-overwrites.ts:189-200 | A stored entry that leaves nothing out is plain resolution of the raw data. |
| `CredentialsOverwrites.FilledMeans` | packages/cli/src/credentials-overwrites.ts:159-166 | A key is filled when it is missing, undefined, null or the empty string; every other value stays. |
| `CredentialsOverwrites.FilledIdempotent` | packages/cli/src/credentials-overwrites.ts:159-168 | Filling the blanks a second time changes nothing. |
| `CredentialsOverwrites.CredentialsOverwrites.GetOverwrites` | packages/cli/src/credentials-overwrites.ts:171-201 | Nothing of the type's own data is lost and whatever is added is inherited, however much of the cache is filled; with one parent per type the answer leaves nothing out if going up from the type the first one already resolved, if any, has a complete entry. Resolved types answer from the store, unknown ones not at all. |
| `CredentialsOverwrites.CredentialsOverwrites.MergeParents` | packages/cli/src/credentials-overwrites.ts:189-192 | The loop over the parents: what it collects is inherited unless the type defines it itself, and on a first visit with a single parent it covers all that is available to the parent. |
| `CredentialsOverwrites.CredentialsOverwrites.SetPlainData` | packages/cli/src/credentials-overwrites.ts:115-128 | Every type is visited once, in some order, and with one parent per type the order decides which stored entries are plain resolution of the raw data: those that come in order; among them the first visited, if it and its ancestors are known, and all of them when parents come first. In every order the rest are merges of the raw data. |
| `CredentialsOverwrites.CredentialsOverwrites.AnswerInTurn` | packages/cli/src/credentials-overwrites.ts:121-127 | One turn: what is resolved afterwards, and that storing the answer keeps complete entries complete and completes a type that is in order. |
| `CredentialsOverwrites.CredentialsOverwrites.SetData` | packages/cli/src/credentials-overwrites.ts:130-138 | The object that is saved is the one that was rewritten in place, with the same complete entries. |
| `CredentialsOverwrites.CredentialsOverwrites.LoadOverwriteDataFromDb` | packages/cli/src/credentials-overwrites.ts:56-76 | A reload within a reload and an empty table change nothing; otherwise the row becomes the raw data, merged. |
| `CredentialsOverwrites.CredentialsOverwrites.Get` | packages/cli/src/credentials-overwrites.ts:203-210 | Keys and values of a lookup, as inheritance gives them; plain resolution for single parents. |
| `CredentialsOverwrites.CredentialsOverwrites.ApplyOverwrite` | packages/cli/src/credentials-overwrites.ts:152-169 | Exactly the blank keys of the lookup are filled; every other key is kept. |
| `CredentialsOverwrites.FillBlanks` | packages/cli/src/credentials-overwrites.ts:159-166 | The loop fills a key when it is missing, undefined, null or the empty string, in any order of keys. |
| `CredentialsOverwrites.SaveAndReload` | packages/cli/src/credentials-overwrites.ts:56-76 | Saving in one process and loading in another answers every lookup alike. |
| `ReplaceCredentials.ReplaceInvalidCredentials` | packages/cli/src/workflow-helpers.ts:110-214 | In terms of the stored rows: a name without an id becomes the only row of that name and type, and stays without an id if there is none or more than one; an id that is found becomes its row; one that is not becomes the only row of its name, if no earlier node carries it, or stays. Disabled nodes and nodes without credentials are untouched. The result does not mention the caches. |
| `ReplaceCredentials.ResultIsRepaired` | packages/cli/src/workflow-helpers.ts:129-209 | The same for one reference. |
| `ReplaceCredentials.FoundOne` | packages/cli/src/workflow-helpers.ts:141 | A lookup by name finds one credential exactly when one stored row matches, and then that row. |
| `ReplaceCredentials.ReplaceInNode` | packages/cli/src/workflow-helpers.ts:125-210 | The inner loop: the results for one node, and caches that then describe one node more, for every type and in any order of types. |
| `ReplaceCredentials.CacheRefinesLookup` | packages/cli/src/workflow-helpers.ts:110-214 | Both directions: every enabled node gets what an independent lookup gives, if and only if a reference found nowhere is followed, for the same type and id, only by its own name. |
| `ReplaceCredentials.EqualNamesAgree` | packages/cli/src/workflow-helpers.ts:110-214 | In particular when equal type and id carry equal names. |
| `ReplaceCredentials.ConflictingNames` | packages/cli/src/workflow-helpers.ts:169-209 | A workflow and a store for which the second of two nodes is given the name of the first. |
| `ReplaceCredentials.ReplacedTwice` | packages/cli/src/workflow-helpers.ts:110-214 | A second run with empty caches over the same store changes nothing, for every workflow. |
| `ReplaceCredentials.ReplaceByName` | packages/cli/src/workflow-helpers.ts:129-160 | One reference in the old format: its result, and the cache after it. |
| `ReplaceCredentials.ReplaceById` | packages/cli/src/workflow-helpers.ts:162-209 | One reference with an id: its result, and the cache after it. |
| `ReplaceCredentials.FoundByNameIsFoundById` | packages/cli/src/workflow-helpers.ts:186-199 | A credential found by a unique name is found again by its own id. |
| `ConnectionPool.Runs` | packages/nodes-base/utils/connection-pool-manager.ts:91-157 | In every run each controller is aborted at most once; no pool idles longer than the time to live plus the interval while the last sweep is no older than the interval; without overlapping creations a pool is in the map exactly when its controller is un-aborted. |
| `ConnectionPool.ExclusiveRuns` | packages/nodes-base/utils/connection-pool-manager.ts:91-157 | Both directions, for every run: a pool is in the map exactly when its controller is un-aborted, in every state, if and only if no creation completes un-aborted under a key that is registered already. |
| `ConnectionPool.CompleteExclusive` | packages/nodes-base/utils/connection-pool-manager.ts:102-121 | Completing a creation keeps map and liveness in step exactly when it was aborted or nothing is registered under its key. |
| `ConnectionPool.AbortExclusive` | packages/nodes-base/utils/connection-pool-manager.ts:117-133 | An abort removes the registration of its own controller and no other. |
| `ConnectionPool.StepValid` | packages/nodes-base/utils/connection-pool-manager.ts:91-157 | Every operation keeps the state consistent and the count of abort events equal to the set of aborted controllers, whatever overlaps. |
| `ConnectionPool.StepExclusive` | packages/nodes-base/utils/connection-pool-manager.ts:91-157 | An operation keeps map and liveness in step exactly when it is not such a completion; without overlapping creations there is none. |
| `ConnectionPool.SweepRemovesStale` | packages/nodes-base/utils/connection-pool-manager.ts:139-147 | A sweep removes and aborts a pool exactly when it has been idle for longer than the time to live. |
| `ConnectionPool.OverlapRemovesOther` | packages/nodes-base/utils/connection-pool-manager.ts:91-124 | Two overlapping creations both register; aborting the first then removes the second. |
| `ConnectionPool.ConnectionPoolManager.Abort` | packages/nodes-base/utils/connection-pool-manager.ts:118-133 | Abort and listener call each other and terminate; the effect is one abort event and one removal. |
| `ConnectionPool.ConnectionPoolManager.CleanupConnection` | packages/nodes-base/utils/connection-pool-manager.ts:126-133 | Removes the registration before aborting, so the re-entrant call finds nothing. |
| `ConnectionPool.ConnectionPoolManager.CleanupStaleConnections` | packages/nodes-base/utils/connection-pool-manager.ts:139-147 | The loop drops exactly the stale registrations, in any order. |
| `ConnectionPool.ConnectionPoolManager.PurgeConnections` | packages/nodes-base/utils/connection-pool-manager.ts:153-157 | The loop drops all of them. |
| `ConnectionPool.ConnectionPoolManager.BeginConnection` | packages/nodes-base/utils/connection-pool-manager.ts:91-102 | After a hit no sweep within the time to live removes the pool; a miss hands out a controller nobody has. The state stays valid, and exclusive if it was. |
| `ConnectionPool.ConnectionPoolManager.CompleteConnection` | packages/nodes-base/utils/connection-pool-manager.ts:103-123 | The caller gets the pool exactly when it is registered, as this pool and this controller used now, and live. The state stays valid, and exclusive exactly when the handler aborted or nothing was registered under the key. |
| `WebhookRegistration.SuccessStoresAll` | packages/cli/src/active-workflow-manager.ts:159-224 | Outside init and leadership change, a run that gets through has stored every webhook under the workflow. |
| `WebhookRegistration.ThrowLeavesNone` | packages/cli/src/active-workflow-manager.ts:201-221 | After any number of turns and without a clean-up, none of the workflow's rows remain exactly when there were none and nothing was written. |
| `WebhookRegistration.OthersKeptIffKeysFree` | packages/cli/src/active-workflow-manager.ts:159-224 | Both directions: rows of other workflows stay as they are, on success and after the roll-back, if and only if no key written was theirs. |
| `WebhookRegistration.TakenPathIsOverwritten` | packages/cli/src/active-workflow-manager.ts:184-215 | A taken path: the second workflow takes the row over, and its roll-back deletes it. |
| `WebhookRegistration.AfterRows` | packages/cli/src/active-workflow-manager.ts:159-188 | After any number of webhooks the table has the old keys and the written ones; written ones belong to the workflow, others are unchanged. |
| `WebhookRegistration.LastWriterWins` | packages/cli/src/active-workflow-manager.ts:165-187 | Of several webhooks with one key the row says what the last one stored, with normalised path, webhook id and path length. |
| `WebhookRegistration.SamePath` | packages/cli/src/active-workflow-manager.ts:165-177 | Which registered paths share a row: a path without slashes at its ends, and that path with one slash more at either end or both, and no other. |
| `WebhookRegistration.RowMeans` | packages/cli/src/active-workflow-manager.ts:159-182 | A row has the webhook's method and its path with one slash off either end; the webhook id and the number of segments exactly for a path with a parameter at a node that has a webhook id. |
| `WebhookRegistration.ActiveWorkflowManager.AddWebhooks` | packages/cli/src/active-workflow-manager.ts:148-233 | Outside init and leadership change, on success every webhook is stored. On a throw inside the loop none of the workflow's rows remain if and only if the clean-up works or there were none and nothing was written; on a throw after it, from filling the cache, all of them stay. In every case rows of other workflows are kept exactly when no key written was theirs. |
| `WebhookRegistration.ActiveWorkflowManager.StoreWebhooks` | packages/cli/src/active-workflow-manager.ts:159-224 | The loop goes exactly as far as the first error that is not ignored, and leaves the rows of the turns up to there. |
| `WebhookRegistration.ActiveWorkflowManager.ClearWebhooks` | packages/cli/src/active-workflow-manager.ts:239-284 | On success the workflow has no rows, no row of another workflow has changed and none has been added; otherwise nothing has changed. |
| `ActivationQueue.QueueRuns` | packages/cli/src/active-workflow-manager.ts:783-845 | In every run: one armed timer for each queued workflow, set for its wait, and none for others; the stored wait is the closed form for the number of failures; every queued workflow has an activation error if errors were never cleared. |
| `ActivationQueue.RetryKeeps` | packages/cli/src/active-workflow-manager.ts:790-823 | A failed retry adds one failure and re-arms with the closed form of the next wait. |
| `ActivationQueue.SkippedRetryStrands` | packages/cli/src/active-workflow-manager.ts:598-605 | A retry that were skipped as no longer active would leave its workflow queued without a timer. |
| `ActivationQueue.BackoffDoubles` | packages/cli/src/active-workflow-manager.ts:799-802 | Doubling and capping step by step is min(1000 * 2^k, one day) after k failures. |
| `ActivationQueue.CappedFrom17` | packages/cli/src/constants.ts:79-80 | The wait is at its cap exactly from the seventeenth failure on. |
| `ActivationQueue.StepKeeps` | packages/cli/src/active-workflow-manager.ts:474-521 | Every operation keeps timers, waits and errors in step. |
| `ActivationQueue.ActiveWorkflowManager.AddQueuedWorkflowActivation` | packages/cli/src/active-workflow-manager.ts:783-835 | The workflow is queued with the initial wait, all others stay as they were, and the queue keeps one armed timer each. |
| `ActivationQueue.ActiveWorkflowManager.RetryActivation` | packages/cli/src/active-workflow-manager.ts:790-823 | The retry as one atomic step, whether it succeeds, fails early or fails after leaving the queue. After a failure it is queued again with a timer set for twice the wait, up to a day, and the error is registered; other workflows stay as they were. The queue stays consistent exactly when the retry is not skipped. |
| `ActivationQueue.ActiveWorkflowManager.AddWorkflow` | packages/cli/src/active-workflow-manager.ts:561-683 | Which errors are registered afterwards: a workflow that is not found throws and registers nothing, one that is skipped at start-up changes nothing. After success and late failure the workflow is off the queue with no timer left; in the other cases the queue is as it was. |
| `ActivationQueue.ActiveWorkflowManager.ActivateWorkflow` | packages/cli/src/active-workflow-manager.ts:474-521 | Start-up: after a failure the error is registered with its message, and the workflow queued with the initial wait exactly unless it is an authorization error; after success it is off the queue without an error. Other workflows stay as they were. |
| `ActivationQueue.ActiveWorkflowManager.EmitError` | packages/cli/src/active-workflow-manager.ts:385-409 | A failing trigger registers its error with the message and queues the workflow with the initial wait and one timer set for it; other workflows stay as they were. |
| `ActivationQueue.ActiveWorkflowManager.RemoveWorkflow` | packages/cli/src/active-workflow-manager.ts:882-900 | Afterwards the workflow is not queued, has no error and no armed timer; entries, timers and errors of all others are as before. |
| `ActivationQueue.ActiveWorkflowManager.RemoveAllQueuedWorkflowActivations` | packages/cli/src/active-workflow-manager.ts:850-854 | The loop leaves no entry and no armed timer. |
| `LeaderTriggers.StepKeepsLeader` | packages/cli/src/active-workflow-manager.ts:594-662 | With the reading of `isLeader` and the start of the triggers as separate steps, and one step for each workflow a step-down closes: a step keeps triggers with the leader, or with an instance about to close them, if and only if it is neither a start after leadership was lost nor a close that throws on what no other handler will close. |
| `LeaderTriggers.TriggersStayWithLeader` | packages/cli/src/active-workflow-manager.ts:529-538 | Through every run over any number of instances, with activation, publishing, delivery, removal, step-down and takeover in any interleaving: triggers stay with the leader throughout if and only if neither of the two is taken. |
| `LeaderTriggers.AtMostOneHolder` | packages/cli/src/active-workflow-manager.ts:1005-1007 | Where that holds and no step-down has the workflow yet to close, only the leader holds it, and so at most one instance. |
| `LeaderTriggers.LateStart` | packages/cli/src/active-workflow-manager.ts:594-662 | The late start happens: from every state in which a leader holds and closes nothing there is a run after which two instances run the triggers of one workflow, and only one of them leads. |
| `LeaderTriggers.ActivationStarts` | packages/cli/src/active-workflow-manager.ts:594-662 | Undisturbed, an activation starts triggers exactly on the leader, and only on the instance it runs on. |
| `LeaderTriggers.RemovalTakesOut` | packages/cli/src/active-workflow-manager.ts:921-931 | A removal that works, and a failing trigger, take the workflow out of memory on that instance and touch nothing else. |
| `LeaderTriggers.SteadyRuns` | packages/cli/src/active-workflow-manager.ts:594-662 | As long as nobody steps down, triggers stay with the leader whatever the activations do. |
| `LeaderTriggers.LeftoverIs` | packages/core/src/execution-engine/active-workflows.ts:218-230 | What the closing loop leaves is exactly the first workflow whose close throws and everything after it; nothing if and only if none throws. |
| `LeaderTriggers.StepDownCloses` | packages/core/src/execution-engine/active-workflows.ts:218-230 | An undisturbed step-down leaves its instance without triggers if and only if no active workflow's close throws. |
| `LeaderTriggers.ActiveWorkflows.RemoveAllTriggerAndPollerBasedWorkflows` | packages/core/src/execution-engine/active-workflows.ts:218-230 | The loop leaves what that law says; it throws exactly when an active workflow's close does, and exactly then something is left. |
| `LeaderTriggers.ActiveWorkflows.RemoveWorkflow` | packages/core/src/execution-engine/active-workflows.ts:200-216 | An inactive workflow is no error; an active one whose close throws stays marked active. (Its crons and the triggers closed before are then gone already.) |
| `Deadlines.TimeoutInForce` | packages/cli/src/workflow-runner.ts:224-250 | A timeout of the workflow's own goes before the configured one, even when zero or negative, which means none; a positive one is cut to the maximum. The deadline is that many seconds from the reading. |
| `Deadlines.ChainNeverLater` | packages/cli/src/workflow-execute-additional-data.ts:319-330 | At any depth of nested sub-workflow calls a deadline is never later than that of any ancestor. |
| `Deadlines.TreeEndsInTime` | packages/cli/src/workflow-runner.ts:224-252 | When the root has a timeout the whole tree stays within its start plus the configured maximum. |
| `Deadlines.OwnTimeoutBinds` | packages/cli/src/workflow-execute-additional-data.ts:319-330 | A sub-workflow with a timeout of its own bounds everything below it, also under a root without one. |
| `Deadlines.SubworkflowDeadline` | packages/cli/src/workflow-execute-additional-data.ts:319-330 | The latest deadline that respects both the parent's deadline and the own timeout, where there are any. |
| `Deadlines.ArmStopTimer` | packages/cli/src/workflow-runner.ts:224-333 | The stop comes at the later of first start plus limit and now; at once exactly when the limit has passed; never when there is no limit. Since the clock is read twice, it comes no later than the soft deadline exactly when no time passes between the readings on a fresh start, and on a resume when the first start is no later than the first reading and no more than the limit passes between the two. |
| `Flatten.FlattenRoundTrip` | packages/nodes-base/utils/utilities.ts:346-366 | Rebuilding nested objects from the flat keys gives the data with empty containers pruned and arrays read as index-keyed objects, at any depth. |
| `Flatten.FlattenObject` | packages/nodes-base/utils/utilities.ts:346-366 | The nested loops keep every leaf under the text of its path and nothing else, in any order of keys; no value of the result is an object or array. |
| `Flatten.FlatUnique` | packages/nodes-base/utils/utilities.ts:346-366 | Only one map is the flat form of the data. |
| `Flatten.SplitJoin` | packages/nodes-base/utils/utilities.ts:361 | Paths without dots are recovered from their text, so distinct paths never collide. |
| `Flatten.FlattenKeys` | packages/nodes-base/utils/utilities.ts:71-79 | The recursion that carries the path collects every leaf below the prefix and nothing else, by merging disjoint maps. |
| `Flatten.FlattenKeysAgrees` | packages/nodes-base/utils/utilities.ts:71-79 | Both functions compute the same map. |
| `Flatten.RebuildLeaves` | packages/nodes-base/utils/utilities.ts:346-366 | Any table of exactly the leaves of the data, at any depth, rebuilds to the pruned data. |
| `Json.DecimalSpells` | packages/nodes-base/utils/utilities.ts:348 | The key of an array item spells its index in decimal digits, without leading zeros. |
| `Json.ArrayFieldsAreItems` | packages/nodes-base/utils/utilities.ts:354-361 | Each item of an array is found under its own decimal index; indices do not collide. |
| `FuzzyCompare.CompareDecidesMatches` | packages/nodes-base/utils/utilities.ts:189-271 | The chain of early returns decides exactly: equal, both blank, one written as the other in another type, or, from version 2 on, null against zero. |
| `FuzzyCompare.CompareLaws` | packages/nodes-base/utils/utilities.ts:189-271 | Reflexive, symmetric, containing strict equality; a version 1 match is a version 2 match, and version 2 adds null against zero and nothing else. |

## Left out

- The node engine, concurrency queueing order, leader election and the external side of webhooks: they appear as events or outcomes.
- Reading and writing the database, cache, pubsub and push messages: rows are maps, a published command can be delivered at any later time, any number of times.
- Ciphers and JSON text: encryption and its inverse, and writing and parsing JSON, cancel out.
- ResumeProtocol.FirstToContendWins: does not say that a scheduled attempt gets to run; a process may stop at any step.
- ActiveExecutions.SlotAccounting: is stated while concurrency control is on; after `disable()` neither `throttle` nor `release` counts.
- ActiveExecutions.SurvivesResumes: does not model how a response promise settles, nor streaming responses.
- WebhookRegistration.ActiveWorkflowManager.AddWebhooks: the external clean-up of webhooks is one yes-or-no outcome, and the webhook cache is not modelled.
- ActivationQueue.QueueRuns: does not cover a retry whose `add` is interleaved with a removal or another queueing; a retry works on the workflow as it was when it was queued, with its active version, so it is not skipped.
- LeaderTriggers.TriggersStayWithLeader: leaves out the flag that skips an activation pass while another is under way, which only removes runs, and webhooks. Triggers that a failed activation started before any was marked active are not tracked, as in the source.
- LeaderTriggers.ActiveWorkflows.RemoveWorkflow: a workflow whose close throws stays marked active although its crons are deregistered and its earlier triggers closed; what is left of it in part is not modelled.
- LeaderTriggers.StepKeepsLeader: several instances are values of one state machine, not objects; closing one workflow is one step.
- CredentialsOverwrites.CredentialsOverwrites.GetOverwrites: with several parents its contract does not fix which of them supplies a key they share.
- CredentialsOverwrites.CredentialsOverwrites.LoadOverwriteDataFromDb: a row that cannot be decrypted or parsed is logged by the source and changes nothing; it is not a case of the model.
- ReplaceCredentials.ReplaceInvalidCredentials: type, id and name keys are plain, so property names that every JavaScript object inherits are not modelled.
- ConnectionPool.Runs: says nothing of the bound while no sweep runs; the pools themselves and the `wasUsed` callback are opaque.
- Flatten.FlattenObject: dates and undefined values are not JSON and not modelled.
- Flatten.FlattenKeys: excludes objects with a numeric `length`, which the library that iterates them treats as arrays.
- Helpers such as `chunk`, `shuffleArray`, `addNodeIds` and `removeDefaultValues`: easy members that would add little.
