# agentacct: a verified model of its durable state machines

This project models the parts of agentacct whose correctness is a statement about histories rather than about one
call, and proves those statements:

- **the control plane** (`src/agentacct/control_plane.py`): an append-only action log, read as bytes, replayed by one
  reducer, and written by store methods that build a record from a snapshot and commit it later;
- **Codex evidence reconciliation** (`src/agentacct/codex_rollout_adapter.py`): duplicated and reordered carrier
  fragments reduced to at most one donated event id per call;
- **session nesting** (`src/agentacct/api.py`): a one-pass walk over arbitrary parent pointers;
- **four smaller machines**: finding-disposition replay, the ledger warmer's timing, stopping managed processes, and the
  payload gate and source-tree digest used when building and benchmarking.

| module | what it holds |
|---|---|
| `Common`, `Ordering` | options, results, JSON values; Python's order on strings and least elements |
| `ActionLog` | the log file as bytes: lines, appends that may stop anywhere, crash safety |
| `ControlRecords`, `ControlReducer` | records and events; the reducer as a function and as a class that updates dictionaries |
| `ControlHistory` | what holds along every log: growth, replay, repetition, keys |
| `ControlRules` | what the reducer demands of an event, said by what the demands are for, and that its checks are exactly that |
| `ControlStore`, `ControlRuns` | the sixteen store methods, the retry path, two-phase commits; callers interleaving over one torn file |
| `ControlCalls` | for each store method when a call commits, what it raises otherwise, and what it leaves, field by field |
| `ControlRaces` | what a caller is answered when another commit under its key came first |
| `ControlAttempts`, `ControlApprovals`, `CrossedApproval`, `ControlRelease` | lifecycles of attempts and approvals, and whether an attempt can proceed without its approval |
| `ControlReferences`, `ControlSchedules` | task merging and references; schedules |
| `CodexEvidence` | reconciliation of one call and of a rollout |
| `CodexDecoding`, `CodexMeaning` | the fragment decoders and the cheap pre-test; what a decoded fragment says in terms of its record |
| `SessionNesting` | the session walk and the labelling it computes |
| `FindingDisposition`, `Warming` | the disposition ledger, the ledger warmer |
| `RuntimeStop`, `RuntimeCourse` | `RuntimeManager.stop` and its signal rules; when it succeeds, whom it signals, how long it waits |
| `TreeDigest`, `PayloadCheck` | the framed digest stream; the recursive alias check of a frozen payload |

`dafny verify dfyconfig.toml` checks everything.

## How the source is read

The dictionary updates of the reducer, the action file, the store, the evidence accumulator, the session walk, the
disposition loop, the warmer, the runtime manager and the digest loop are imperative, as in the source; each is proved
equal to a function of its inputs or old state, and the theorems are about that function. The record validators, the
checks that precede a dictionary update, the decoders, the transition tables and the payload check are functions; the
in-place reducer calls the same checks as its specification.

Assumptions, each visible in a type or a `requires`:

- **The codec.** JSON together with the record hash is `ActionLog.Codec`. `ActionLog.FaithfulAt` assumes of an event
  that is written that it decodes to itself, prints as one non-blank line without a line break (section 7 of RFC 8259
  has control characters in strings escaped), and that no proper prefix of that line decodes. Nothing is assumed of
  events that are not written. `ControlRuns.FaithfulRunsExist` gives, for every sequence of steps of every caller, a
  codec that is faithful at everything the run writes.
- **Digests.** A digest is represented by the value it digests, so equal digests mean equal values.
- **Outside answers.** Clock readings, event ids, store change tokens, process-ownership answers, denied signals, path
  resolution, directory listings and `stat` are inputs, unrestricted except where a theorem says so (a monotone clock
  for the warmer, for instance).
- **Numbers.** Times and budgets are exact reals; revisions and counts are unbounded, as in Python. The eight-byte
  lengths of the tree digest are bounded as in the source.
- **Field syntax.** Texts are stored stripped of surrounding white space, and optional texts that are then empty are
  absent, as `_text` does (`ControlRecords.Strip`); operation digests keep what the caller wrote. The rest of
  identifier, text, path and argument-vector syntax is not repeated: a logged payload that fails it is
  `UndecodedPayload`, which the reducer refuses, and the requests of store calls are those that pass it.

### Every log, or logs the store wrote?

The reducer accepts records that no store method writes. Each theorem says which logs it covers. **Every log** (any
sequence of events): everything in `ControlHistory`, `ControlAttempts` and `ControlApprovals`,
`ControlRules.EventsAreAcceptedIff`, `ControlCalls.FreshCallsDoAsSaid`, the theorems on whole logs in
`ControlRelease`, `ControlSchedules.SchedulesMoveByClaimsAndUpdates` and `TicksOfLogsArePathIndependent`,
`ControlReferences.MergedStaysMerged` and `MergedTasksTakeNoWork`. **Logs written by store methods** (`StoreWritten`:
each event is what some call, done in one step, appends): the merge forest, the resolution of references, the start of
attempts without process data, and the answers of racing retries. `ControlRuns.ConcurrentRunsAreStoreMade` connects
the two: any interleaving of callers (each looking up its key, reading a snapshot and committing, three separate
steps), abandoned calls and torn appends leaves a log of that kind.

### Where the code is not what one might expect

- *An approval can move an attempt.* The `approval_resolved` branch compares the new attempt's task with the
  approval's, not with the attempt's (`src/agentacct/control_plane.py:1130-1131`), and leaves it out of the unchanged
  fields. `CrossedApproval.ResolutionMayMoveAttempt` gives a log in which every event is accepted and the attempt ends
  on a task without a contract; `ControlApprovals.ReleaseKeepsTaskIff` is the exact condition. Store methods test it.
- *A padded actor id cannot be retried.* The event stores the actor id stripped (`src/agentacct/control_plane.py:753`),
  the digest is of the id as given (`:1443`), and a retry compares the given id with the stored one (`:1494`).
  `ControlStore.PaddedActorIsRefused` is a call refused when repeated verbatim; `RetryReturnsFirst` is the exact
  condition for all sixteen methods: the caller wrote the id the way it is stored. `RetryIsFoundIff` says the same of
  repetitions with other inputs.
- *A racing retry may answer with a later record.* The retry path returns the record committed first, but the duplicate
  branch under the lock returns the projection, from which the method reads the current record of its own target.
  `ControlRaces.RacingRetryMayAnswerLater` is an instance with two drafts for one key;
  `RacingRetryAnswersFirstIffUnmoved` is the exact condition in logs the store wrote: no event recorded since stores a
  record of that target.
- *A digest need not describe its event.* The reducer never compares the two. `ControlRaces.MisnamedKeyAnswersNothing`
  is an accepted log, not written by the store, in which a caller is replayed an event about another agent and its own
  agent does not exist.
- *A racing call may be refused with equal inputs.* Four methods put what their snapshot shows into the digest.
  `ControlRaces.RacingCallIsAnsweredIff`: a call that missed the first commit in its lookup is answered it exactly when
  it asks the same and both snapshots show the same, and is refused as a conflict otherwise.
- *Transitions do not ask for the approval.* The reducer lets a waiting attempt become ready, or launch while it waits
  (`src/agentacct/control_plane.py:1003-1062`); only the supervisor looks (`src/agentacct/supervisor.py:473-479`).
  `ControlRelease.TransitionReleasesWaiting` and `TransitionLaunchesWaiting` are the store calls;
  `ReleasedByApprovalIff` is the exact condition over every log, and `GatedIsReleasedByApprovalIff` that for attempts
  whose contract asks for an approval, which are never born ready.
- *The list of donated ids shows the order of the log when it is full.* `CodexEvidence.ListHidesOrderIff` is the exact
  condition: nothing more is listed, or all new ids fit under the cap.
- *Refusals with empty texts show their order.* The sort key writes a missing part and an empty one alike
  (`CodexEvidence.EmptyPartsMakeOrderVisible`). `ResultIsUniqueIff` and `OrderInvisibleIff` are the exact conditions: no
  two different skips share the least key. `CodexDecoding.DecodedPartsAreNonEmpty` derives from the decoders that their
  fragments never have an empty part.
- *One signal per group needs distinct groups.* Signals are sent per record. `RuntimeStop.GroupsHitOnceIffDistinct`:
  no answers, denials and grace periods make a call hit a group twice with one signal exactly when the recorded groups
  are distinct, which the lease reader does not require; `SharedGroupIsHitTwice` names the answers otherwise.
- *The cycle walk of `task_merged` never iterates.* It starts at a target already known to be active. That merges form
  a forest is proved from that test alone.

## Model

| member | source | states |
|---|---|---|
| ActionLog.AppendAddsOneLine | src/agentacct/control_plane.py:1351-1368 | after an append the file's lines are the old lines and the new record, whatever bytes it held |
| ActionLog.LinesMeaning | src/agentacct/control_plane.py:1377 | the lines with their endings are the file; every line feed, carriage return or pair ends one line and nothing else does |
| ActionLog.TornAddsAtMostOneLine | src/agentacct/control_plane.py:1351-1368 | the lines after an append that stopped at any byte: unchanged, or one more with a prefix of the record |
| ActionLog.ActionFile.Append | src/agentacct/control_plane.py:1351-1368 | the file grows by a separator when its last line is open, the record and a line feed |
| ActionLog.TornAppendIsAllOrNothing | src/agentacct/control_plane.py:1351-1399 | a torn append adds its event exactly when all its bytes arrived, otherwise no event, and no earlier event is lost |
| ActionLog.RunsAreCrashSafe | src/agentacct/control_plane.py:1351-1399 | over any run of appends that may each stop anywhere, the readable events are the completed ones, in order |
| ControlReducer.ControlProjection.ApplyEvent | src/agentacct/control_plane.py:891-1306 | the in-place reducer leaves exactly the state of the reducer function and raises exactly its error; a refusal changes nothing |
| ControlRules.EventsAreAcceptedIff | src/agentacct/control_plane.py:898-1301 | over every log an event with a new key is accepted exactly when its numbers and labels are in order, revisions count, references resolve, states move as they may and the launch gate holds, for all seventeen actions |
| ControlRules.RefusalsAreExplained | src/agentacct/control_plane.py:898-1301 | over every log the error an event is refused with names a fault it has: a bad shape, a missing record, a revision that does not count, or a forbidden change |
| ControlRules.TablesAreSteps | src/agentacct/control_plane.py:48-70 | the transition tables by target: ends are final, success needs a running process, anything unfinished may be lost; control gets stricter or returns to ready; approvals are decided once and used only when approved |
| ControlRecords.StripMeaning | src/agentacct/control_plane.py:136-146 | cleaning takes white space off both ends, all of it and nothing else |
| ControlHistory.AfterEvolves | src/agentacct/control_plane.py:891-1306 | an event loses no record and no key, and a record that keeps its revision is unchanged |
| ControlHistory.RevisionsIdentifyRecords | src/agentacct/control_plane.py:874-876 | along every growing log an equal revision means an equal record, in all eight maps |
| ControlHistory.FoldAppend | src/agentacct/control_plane.py:1372-1399 | replaying a log in two parts is replaying it whole |
| ControlHistory.RecordedEventsReplay | src/agentacct/control_plane.py:1302-1306 | the recorded events alone rebuild the projection, each of them accepted |
| ControlHistory.RepetitionIsHarmless | src/agentacct/control_plane.py:892-897 | repeating an accepted event verbatim anywhere later changes nothing |
| ControlHistory.OneEffectPerKey | src/agentacct/control_plane.py:892-897 | two recorded events with one idempotency key are the same event |
| ControlRuns.LogStore.Project | src/agentacct/control_plane.py:1372-1399 | reading the file yields the fold of its decodable lines and the issues of all others, without touching it |
| ControlRuns.ReplayIsFold | src/agentacct/control_plane.py:1372-1399 | the line-by-line reader, with its refusals, computes the fold of the decodable records |
| ControlRuns.IssuesIff | src/agentacct/control_plane.py:1381-1398 | the issues are the numbers, in order, of exactly the non-blank lines that hold no event or one the reducer refuses after the lines before |
| ControlRuns.IssuesCarryNoState | src/agentacct/control_plane.py:1385-1398 | deleting every line reported as an issue gives the same projection and no issues |
| ControlRuns.LogStore.Mutate | src/agentacct/control_plane.py:1413-1468 | a commit appends one record if the reducer accepts it and otherwise leaves the file untouched |
| ControlRuns.LogStore.Execute | src/agentacct/control_plane.py:1413-1510 | a whole undisturbed call (retry lookup, snapshot, build, commit) is the atomic call |
| ControlStore.CheckedDraftRebuilds | src/agentacct/control_plane.py:1517-2559 | a draft built from an old snapshot that passes every later check is the draft the method would build then, for all sixteen methods |
| ControlStore.TwoPhaseIsAtomic | src/agentacct/control_plane.py:1413-1468 | a committed two-phase call is the same call done in one step at the commit |
| ControlStore.ResolutionRebuilds | src/agentacct/control_plane.py:2129-2216 | the same for approval resolution, which guards an approval and an attempt at once |
| ControlCalls.FreshCallsDoAsSaid | src/agentacct/control_plane.py:1517-2559 | over every log, for each of the sixteen methods and any call with a new key: it raises the error said for the first guard it fails, without effect, or commits and leaves exactly the records said field by field from its arguments and the records before, one event and one key |
| ControlCalls.TransitionedIsChanged | src/agentacct/control_plane.py:1961-2059 | a transition changes the fields it is given, cleaned, stamps the end of a terminal attempt and keeps every other field |
| ControlCalls.EveryLogIsWellFormed | src/agentacct/control_plane.py:1372-1399 | after every log all records are decodable, keyed by their ids, and approvals and schedules have their shapes |
| ControlStore.RetryReturnsFirst | src/agentacct/control_plane.py:1470-1510 | repeating a committed call returns the event committed first, whatever happened since, exactly when its actor id is written as stored, and is refused as a conflict otherwise, for all sixteen methods |
| ControlStore.RetryIsFoundIff | src/agentacct/control_plane.py:1470-1510 | any call with the key of a committed one, at any later projection, is answered that event exactly when request, expected revision and actor are equal and the actor is written as stored (a new attempt's initial control may be left out or named as recorded); everything else raises a conflict |
| ControlStore.PaddedActorIsRefused | src/agentacct/control_plane.py:732-768 | a registration by an actor id with a trailing blank commits, and the same call again raises a conflict |
| ControlRaces.RecordStaysUntilMoved | src/agentacct/control_plane.py:1302-1306 | in a log of accepted events the record an event stored is still there exactly when no later event stores at that place |
| ControlRaces.RacingRetryAnswersFirstIffUnmoved | src/agentacct/control_plane.py:1444-1450 | in every store-written log, a commit that finds its key taken answers, at its own target, with the records the first commit stored exactly when no event recorded after that one stores a record there |
| ControlRaces.RacingRetryMayAnswerLater | src/agentacct/control_plane.py:1444-1450 | two callers with drafts for one key, a registration in between: the second commit, with its own event id, is answered the newer record |
| ControlRaces.MisnamedKeyAnswersNothing | src/agentacct/control_plane.py:1444-1468 | in an accepted log the store did not write a caller is replayed an event about another agent, and its own agent is absent |
| ControlRaces.RacingCallIsAnsweredIff | src/agentacct/control_plane.py:1413-1468 | a call with the key of a committed one that missed the commit in its lookup is answered it exactly when request, revision and actor are equal and its snapshot puts into the digest what the first snapshot put there; otherwise it raises a conflict, for all sixteen methods |
| ControlRuns.StepsAreAtomic | src/agentacct/control_plane.py:1401-1468 | every step of interleaving callers over one torn file leaves the file alone or commits its own caller's draft, as that caller's call done in one step at that moment, and changes nothing if its bytes do not all arrive |
| ControlRuns.ConcurrentRunsAreStoreMade | src/agentacct/control_plane.py:1401-1510 | after any run of such steps the log is one that atomic store calls wrote one after another, and every answer given carries the event the log keeps for its key |
| ControlRuns.AnswersMatchEffects | src/agentacct/control_plane.py:1401-1510 | every step of interleaving callers answers a commit exactly when its event was accepted and written, and gives any other answer only when it left the file alone; a committing caller stays unanswered only when its append did not return |
| ControlRuns.AnswersAgree | src/agentacct/control_plane.py:1413-1510 | over any run, all callers answered for one key, first, racing or retrying, are answered the one recorded event of that key |
| ControlRuns.FaithfulRunsExist | src/agentacct/control_plane.py:1351-1399 | for every run there is a codec faithful at all it writes, so the assumption of the two rows above can always be met |
| ControlAttempts.AttemptsLiveLifecycles | src/agentacct/control_plane.py:974-1066 | in every log the versions of an attempt are a path in the transition tables, each backed by manifest and process proof as its state demands |
| ControlAttempts.LifecycleNeverGoesBack | src/agentacct/control_plane.py:1013-1062 | revisions count versions, terminal states absorb, manifest and proof never change once set |
| ControlAttempts.CancelledWasRunning | src/agentacct/control_plane.py:1026-1062 | an attempt created without proof that has one was running earlier with that same proof, strictly earlier if cancellation is requested |
| ControlAttempts.CancelRequestedHasProof | src/agentacct/control_plane.py:1046-1062 | every version with a requested cancellation carries a process proof |
| ControlReferences.StoreAttemptsStartUnowned | src/agentacct/control_plane.py:1851-1959 | attempts in store-written logs start without manifest and proof |
| ControlApprovals.ApprovalsAreSingleUse | src/agentacct/control_plane.py:1067-1235 | in every log approvals have at most three revisions, consumed ones were decided and consumed before expiry, and resolutions map injectively to the approvals they settled |
| ControlApprovals.SettledIsFinal | src/agentacct/control_plane.py:1199-1217 | an approval's scope and expiry never change and a settled approval never changes at all |
| ControlApprovals.ReleaseKeepsTaskIff | src/agentacct/control_plane.py:1130-1155 | a resolved attempt keeps its identity exactly when approval and attempt named one task before |
| CrossedApproval.ResolutionMayMoveAttempt | src/agentacct/control_plane.py:1067-1155 | an accepted log whose last event moves an attempt to another task, without a contract |
| ControlRelease.StepIsSafeIff | src/agentacct/control_plane.py:1003-1235 | one event keeps an attempt from running ahead of its launch approval exactly when it is neither a transition that frees it without a consumed approval nor its creation as ready |
| ControlRelease.ReleasedByApprovalIff | src/agentacct/control_plane.py:1003-1235 | over every log, a ready or launched attempt always has a consumed launch approval exactly when no such event occurred |
| ControlRelease.BornReadyIsUngated | src/agentacct/control_plane.py:975-1002 | over every log an attempt is created pending, for its task's current contract, and ready only if that contract neither sets launch_approval_required nor the mutation mode workspace_write |
| ControlRelease.GatedIsReleasedByApprovalIff | src/agentacct/control_plane.py:1003-1235 | over every log an attempt whose contract asks for approval is ready or launched only behind a consumed launch approval, exactly as long as no transition frees it past a missing one |
| ControlRelease.TransitionReleasesWaiting | src/agentacct/control_plane.py:1961-2059 | from every state with a waiting attempt the store's transition to ready commits and touches no approval |
| ControlRelease.TransitionLaunchesWaiting | src/agentacct/control_plane.py:1961-2059 | so does a launch while the attempt goes on waiting |
| ControlReferences.MergeKeepsForest | src/agentacct/control_plane.py:912-933 | an accepted merge keeps the merges a forest |
| ControlReferences.EveryChainEndsOnce | src/agentacct/control_plane.py:912-933 | in a forest every merge chain ends, at exactly one active task |
| ControlReferences.MergeRedirectsExactly | src/agentacct/control_plane.py:912-933 | merging A into B redirects exactly the chains that ended at A, and to B |
| ControlReferences.StoreLogsStayInOrder | src/agentacct/control_plane.py:906-1002 | in store-written logs merges form a forest and every reference resolves |
| ControlReferences.MergedStaysMerged | src/agentacct/control_plane.py:912-933 | in every log a merged task keeps its record, merge target included, for good |
| ControlReferences.MergedTasksTakeNoWork | src/agentacct/control_plane.py:912-1002 | once a task has merged, no later event of any log creates a contract or attempt on it, merges it or merges into it |
| ControlReferences.StoreCancelsWhatRan | src/agentacct/control_plane.py:1003-1066 | in store-written logs every attempt whose cancellation is requested was running earlier, with that same complete proof |
| ControlReferences.BuiltIsShaped | src/agentacct/control_plane.py:1517-2559 | what the store methods never write: merged new tasks, new attempts with process data, resolutions that change an attempt's identity |
| ControlSchedules.NextTickIgnoresPath | src/agentacct/control_plane.py:1278-1300 | the tick after a claim depends on the lattice and the claim time, not on the tick claimed |
| ControlSchedules.NextTickIsNear | src/agentacct/control_plane.py:1278-1300 | it lies strictly after the claim, at most one interval later |
| ControlSchedules.ClaimsArePathIndependent | src/agentacct/control_plane.py:1278-1300 | after any run of claims the next tick is a closed form of first tick, interval and last claim; ticks strictly increase on one lattice and the count counts claims |
| ControlSchedules.TicksOfLogsArePathIndependent | src/agentacct/control_plane.py:1250-1300 | the same for any stretch of any schedule's history in any log whose updates leave the next run alone, with the count equal to the number of claims in it |
| ControlSchedules.SchedulesMoveByClaimsAndUpdates | src/agentacct/control_plane.py:1250-1300 | in every log the versions of a schedule are decodable and connected by fitting claims and by updates that keep its claims |
| ControlSchedules.DueIffClaimCommits | src/agentacct/control_plane.py:2477-2559 | a claim of a schedule at its current revision commits exactly when the schedule is listed as due at that time and the actor is well formed |
| CodexEvidence.ReconcileCall | src/agentacct/codex_rollout_adapter.py:872-1000 | one call's fragments are reconciled as the order-free specification over their set demands |
| CodexEvidence.Reconcile | src/agentacct/codex_rollout_adapter.py:843-1002 | the scan sees, skips and flags exactly what the calls' specifications and the loose fragments add up to, and lists the donated ids in the order of the calls' first fragments, under the cap |
| CodexEvidence.ResultIsUniqueIff | src/agentacct/codex_rollout_adapter.py:872-1000 | the specification admits one result for a set of fragments exactly when they conflict or no two different skips share the least key |
| CodexEvidence.ResultIsUnique | src/agentacct/codex_rollout_adapter.py:872-1000 | without empty parts it admits one result |
| CodexEvidence.OrderAndRepetitionAreIrrelevant | src/agentacct/codex_rollout_adapter.py:843-1002 | permuting or repeating identified fragments changes no call's result |
| CodexEvidence.ScansIgnoreOrderAndRepetition | src/agentacct/codex_rollout_adapter.py:843-1002 | with the same identified fragments as a set and the same loose ones as a multiset, the ids seen, the multiset of skips and the incomplete flag of the scan are the same |
| CodexEvidence.ListHidesOrderIff | src/agentacct/log_evidence.py:661-671 | the listed ids as a set do not show the order of the donations exactly when the list is full already or all new ids fit under the cap |
| CodexEvidence.ScansListAlike | src/agentacct/codex_rollout_adapter.py:843-1002 | two scans of the same fragments list the same ids when the new ones fit |
| CodexEvidence.DonationNeverSwitches | src/agentacct/codex_rollout_adapter.py:872-1000 | more fragments keep a call's donation or withdraw it, never replace it |
| CodexEvidence.DonationNeedsAuthority | src/agentacct/codex_rollout_adapter.py:872-1000 | a donation has an accepted descriptor or terminal and one accepted tool name |
| CodexEvidence.KeyLeMeaning | src/agentacct/codex_rollout_adapter.py:830-840 | classified refusals sort before unclassified ones, and among themselves lexicographically by tool, field and reason |
| CodexEvidence.ClassifiedIsPreferred | src/agentacct/codex_rollout_adapter.py:990-999 | a call without conflict whose skip is reported unclassified has no classified refusal at all |
| CodexEvidence.BindMeaning | src/agentacct/codex_rollout_adapter.py:808-829 | a split refusal takes over its descriptor's tool and conflicts with a different one of its own |
| CodexEvidence.ConflictMeaning | src/agentacct/codex_rollout_adapter.py:872-989 | a call conflicts exactly when two different events are reported with authority, two accepted carriers name different tools, a refusal names another tool than its carrier, or a carrier that counts drifted |
| CodexEvidence.SkipsMeaning | src/agentacct/codex_rollout_adapter.py:895-999 | the skips of a call: unclassified for a rejected descriptor with an output or a terminal carrier not accepted, and one for every outcome that created nothing, bound to its tool |
| CodexEvidence.FirstLeast | src/agentacct/codex_rollout_adapter.py:830-840 | the reported refusal is a listed one that sorts before all others |
| CodexEvidence.KeyLeAntisymmetric | src/agentacct/codex_rollout_adapter.py:830-840 | the sort key tells refusals without empty parts apart |
| CodexEvidence.EmptyPartsMakeOrderVisible | src/agentacct/codex_rollout_adapter.py:830-840 | two refusals the key cannot tell apart, reported by order |
| CodexEvidence.OrderInvisibleIff | src/agentacct/codex_rollout_adapter.py:990-999 | no rearrangement changes the reported skip exactly when no two different skips share the least key |
| CodexEvidence.EvidenceAccumulator.AddEventId | src/agentacct/log_evidence.py:661-671 | a malformed id counts as a skip; every other is remembered, and listed once while the cap allows |
| CodexDecoding.CheapTestIsExact | src/agentacct/codex_rollout_adapter.py:712-807 | the cheap pre-test accepts a record exactly when the decoder returns a fragment |
| CodexMeaning.EveryRecordDecodes | src/agentacct/codex_rollout_adapter.py:193-752 | for each carrier, in terms of the record's fields: when there is a fragment, its role, call and tool, that it is accepted exactly when a creation tool is called on our server, which event or refusal it reports, and when it counts as a skip or as drift |
| CodexMeaning.DonatesIff | src/agentacct/codex_rollout_adapter.py:843-1002 | a call donates an event exactly when its fragments do not conflict and one of its records reports that event with authority: a trusted terminal carrier, or a split output beside a trusted split call |
| CodexMeaning.RefusalMeaning | src/agentacct/log_evidence.py:417-448 | a text is a refusal exactly when the server's error is found in it; its field is the allowlisted name it begins with, its tool an allowlisted one |
| CodexMeaning.ReasonMeaning | src/agentacct/log_evidence.py:352-391 | the reason code is that of the first rule that applies |
| CodexDecoding.DecodedPartsAreNonEmpty | src/agentacct/codex_rollout_adapter.py:193-752 | decoded fragments carry no empty tool, field or reason, whatever the texts say |
| CodexDecoding.RefusalsSpeakVocabulary | src/agentacct/log_evidence.py:352-448 | a classified refusal names an allowlisted tool or none, a non-empty field or none, and a reason |
| SessionNesting.TopLevelSessionKeys | src/agentacct/api.py:725-796 | the walk returns the rows of the labelling in which cycle members and keys without usable parent are top-level and all others negate their parent; each key is pushed once over the whole call |
| SessionNesting.ReadMeaning | src/agentacct/api.py:744-757 | keys are client and session id, the first entry of a key counts, and its parent is the recorded session of the same client |
| SessionNesting.TopLevelIsUnique | src/agentacct/api.py:725-796 | every parent map has at most one such set of rows |
| SessionNesting.RowsMeaning | src/agentacct/api.py:728-743 | cycle members and keys without usable parent are rows; of any other key and its parent exactly one is, so nothing vanishes |
| SessionNesting.OrderIsIrrelevant | src/agentacct/api.py:725-796 | duplicate-free lists with the same entries get the same rows |
| SessionNesting.Walk | src/agentacct/api.py:759-795 | one walk decides its start and everything on its path, cycles included, and keeps earlier decisions correct |
| FindingDisposition.ReduceFindingDispositions | src/agentacct/finding_disposition.py:212-355 | the replay loop computes the ledger fold |
| FindingDisposition.StatesAreFolds | src/agentacct/finding_disposition.py:158-174 | a finding's revision counts its accepted events, its state is the fold of the transition table over them, and resolved implies a note |
| FindingDisposition.TransitionMeaning | src/agentacct/finding_disposition.py:158-174 | each state is reached by its own actions from where they are allowed, and by nothing else |
| FindingDisposition.MalformationMeaning | src/agentacct/finding_disposition.py:261-307 | an event is rejected for the first check it breaks and passes when it breaks none |
| FindingDisposition.StepMeaning | src/agentacct/finding_disposition.py:212-355 | an event is accepted exactly when it is trusted, breaks no check, has a new key and continues its finding; otherwise under which reason it is counted and which targets it casts doubt on |
| FindingDisposition.InvalidIff | src/agentacct/finding_disposition.py:212-355 | in every log a target is in doubt exactly when some event cast the doubt where it stands |
| FindingDisposition.LastAcceptedShows | src/agentacct/finding_disposition.py:336-345 | in every log a finding shows state, revision, note, action and time of its last accepted event |
| FindingDisposition.TrustedEventsAreCounted | src/agentacct/finding_disposition.py:212-355 | accepted and rejected events add up to the trusted ones |
| FindingDisposition.RepetitionIsIdempotent | src/agentacct/finding_disposition.py:308-322 | repeating an accepted event, however much later, only counts a duplicate |
| FindingDisposition.InterleavingIsUnion | src/agentacct/finding_disposition.py:212-355 | any interleaving of two logs with disjoint findings and keys gives the union of their ledgers |
| Warming.LedgerWarmer.CheckOnce | src/agentacct/ledger_warmer.py:95-121 | a check moves the warmer's fields by the timing rules and rebuilds exactly when they say so |
| Warming.LedgerWarmer.RunRebuild | src/agentacct/ledger_warmer.py:140-155 | a rebuild records its token, forgets the unbuilt change and sets the rest |
| Warming.ChecksAreSteps | src/agentacct/ledger_warmer.py:95-121 | the thread's three steps with nothing in between are the check of the class |
| Warming.RunKeepsInvariant | src/agentacct/ledger_warmer.py:86-161 | over every run with a monotone clock and never-repeating tokens, with writes and reads between any two steps of the thread, its fields agree with what happened |
| Warming.RunsLeaveRoom | src/agentacct/ledger_warmer.py:140-155 | one plus the rest factor times the time of the first k rebuilds fits before the next one starts |
| Warming.BuiltTokenIsFresh | src/agentacct/ledger_warmer.py:140-155 | when built and store token agree the last rebuild began after the last write |
| Warming.RunsFromStart | src/agentacct/ledger_warmer.py:135-155 | both hold in every world of every run from the start |
| Warming.WritesDoNotPostpone | src/agentacct/ledger_warmer.py:95-121 | later writes never move the deadline of an unbuilt change while readers stay |
| Warming.RebuildsAreDue | src/agentacct/ledger_warmer.py:101-121 | over every run a check decides only past the rest and when the store's token was noticed at least the settle time ago or some change at least the maximal wait ago |
| Warming.SettledCheckRebuilds | src/agentacct/ledger_warmer.py:109-121 | a store left alone since its token was noticed is decided on by the next readable check past settle time and rest |
| Warming.ChecksNeedReaders | src/agentacct/ledger_warmer.py:72-76 | over every run a check goes on exactly when some read lies within the reader window, and otherwise forgets the change |
| Warming.OverdueCheckRebuilds | src/agentacct/ledger_warmer.py:114-121 | a watched check whose clock reading is past that deadline and the rest decides, on a readable token, to rebuild the store as it is |
| RuntimeStop.RuntimeManager.Stop | src/agentacct/activation.py:1032-1116 | the call does exactly what the specification function makes of the environment's answers, the denied signals and the grace periods, reports its ending, and removes the lease only on success |
| RuntimeCourse.StopSucceedsIff | src/agentacct/activation.py:1052-1116 | for all answers, denials and graces a call succeeds exactly when no first answer and no answer of the recheck is foreign, nobody it verified runs at the last look and no signal is denied; undenied it sends TERM to exactly the processes that matched at first and KILL to exactly those that matched again |
| RuntimeCourse.CallsRun | src/agentacct/activation.py:1052-1116 | the course of every undenied call: who is asked when, each grace a run of looks that ends when nobody matches (after KILL: when all are gone) or the clock runs out, then the recheck, the last look and the ending |
| RuntimeStop.CallsAreOrderly | src/agentacct/activation.py:1052-1115 | for every sequence of answers, all denied signals and all grace periods that function obeys the four signal rules below, sends no denied signal and records each answer as it was given |
| RuntimeStop.RenderedIsOrderly | src/agentacct/activation.py:1052-1115 | nobody is signalled if any first answer is foreign; TERM once per verified process; KILL only after TERM and a later match; unlink last, when every signalled process was last seen gone |
| RuntimeStop.GroupsHitOnceIffDistinct | src/agentacct/activation.py:1060-1086 | no answers, denied signals and grace periods make a call send a group one signal twice exactly when the recorded groups are distinct |
| RuntimeStop.SharedGroupIsHitTwice | src/agentacct/activation.py:1060-1064 | with a shared group, a call whose first pass finds every process ours and whose first signals are not denied hits it twice, however long the graces |
| TreeDigest.CanonicalScopePaths | benchmarks/gate1_evidence_binding.py:34-52 | the list is refused or comes out as specified, errors in the source's order |
| TreeDigest.ScopeIsASortedArrangement | benchmarks/gate1_evidence_binding.py:34-52 | accepted are exactly the non-empty lists of distinct canonical paths, and they come out sorted with nothing added or lost |
| TreeDigest.TreeDigest | benchmarks/gate1_evidence_binding.py:55-71 | the hashing loop feeds the framed stream of the sorted scope |
| TreeDigest.BigEndianReads | benchmarks/gate1_evidence_binding.py:55-71 | a length below the limit is framed so that it reads back most significant byte first |
| TreeDigest.CanonicalMeaning | benchmarks/gate1_evidence_binding.py:38-46 | a canonical path is not empty, holds no backslash and no NUL, and none of its components between slashes is empty, one dot or two |
| TreeDigest.StreamsDetermineTrees | benchmarks/gate1_evidence_binding.py:55-71 | two trees feed equal bytes exactly when their sorted paths and contents agree |
| TreeDigest.ArgumentOrderIsIrrelevant | benchmarks/gate1_evidence_binding.py:34-71 | permuting the path argument changes nothing, errors included |
| PayloadCheck.ValidIff | packaging/validate-cli-payload.py:27-60 | the gate passes exactly the payloads whose reachable entries all pass the local checks, whose reachable directories can all be listed and form no cycle |
| PayloadCheck.CheckMeaning | packaging/validate-cli-payload.py:32-57 | a recursive check passes exactly when every way from its entry ends at a fine, listable entry that leads back to no directory above it |
| PayloadCheck.FaultIsReal | packaging/validate-cli-payload.py:32-57 | a refusal names a reachable entry that breaks a rule, and says cyclic exactly when the entry itself is fine |
| PayloadCheck.ModeMeaning | packaging/validate-cli-payload.py:49-57 | directories and regular files by the top bits of the mode, and writable by others by the group's or the world's write bit |
| PayloadCheck.AliasMeaning | packaging/validate-cli-payload.py:34-42 | an alias is refused when it begins with a slash or one of its components climbs |

## Left out

- Manifest files (`write_manifest`, `read_manifest`): content-addressed blobs beside the log.
- The order in which `due_schedules` lists schedules: a sort by time and id; which ones it lists is modelled.
- Payload size limits, idempotency-key syntax and identifier, text and path syntax of the record validators: long lists of independent tests; a record that fails one is `UndecodedPayload`.
- Real locks, `fsync`, file modes and directories: exclusive sections are atomic steps, a crash is a byte prefix.
- SHA-256 and JSON themselves: see the assumptions above.
- Floating-point rounding of schedule and warmer times: exact reals.
- ActionLog.FaithfulAt: assumes no proper prefix of a written record decodes, which follows from JSON objects ending in their closing brace; the JSON grammar is not modelled.
- CodexDecoding.ClassifyRefusal: the patterns that locate an error message, a failed tool and the four numeric bounds in a text, and the case, trimming, printing and word-character tables, are functions in `Surroundings`; no theorem depends on what they compute.
- FindingDisposition.Reduce: the digest and text-syntax functions are fields of `Rules`; no theorem depends on what they compute.
- CodexEvidence.EvidenceAccumulator.RecordClassifiedSkip: keeps a refusal as handed over; the source maps a refusal outside its vocabulary to a coarser one.
- RuntimeStop.RuntimeManager.Stop: a signal to a group that vanished in between is recorded like any other, because the source ignores that error; errors other than a denied signal are not modelled.
- `RuntimeManager.start`, `repair` and `status`: launching needs ports, log files and subprocesses, and repair only removes a stale lease.
- PayloadCheck.Check: path resolution and `stat` are finite maps; Python's recursion limit and file systems changing during the check are not modelled. A directory whose listing raises is refused as `Unlistable`; that it raises part-way through its entries is not modelled.
- TreeDigest.StreamsDetermineTrees: assumes the path encoding tells paths apart, as UTF-8 does; the hash of the stream is not modelled.
- The other functions of `src/agentacct/api.py`: routes and request models are plumbing; linking mechanical checks, receipt attention and evidence attachment rest on key functions of modules not modelled here.
- Cost, context bridge, connections, autostart, capability tables and packaging scripts: tables and short branches.
