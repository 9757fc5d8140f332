# Runboard, modelled and proved in Dafny

Runboard tracks QA test runs for many organisations. This project models the parts of it that keep
state and promises about that state, and proves the promises for every input, every sequence of calls
and, where several parties act at once, every interleaving. `dafny verify dfyconfig.toml` checks it all.

| part | files | main results |
|---|---|---|
| suite forest | `ParentWalk`, `SuiteTreeRules`, `SuitesService`, `SuiteRaces` | ancestor chains on arbitrary parent maps, exact cycle test, forest safety over all request sequences, depth law of moves, exactly when the limit of three levels survives, exactly when overlapping requests keep the forest and the limit |
| suite tree | `SuiteForest`, `AssembleSuiteTree`, `FlattenSuiteTree`, `SuiteTreeView` | the in-place assembler builds the one faithful forest out of any list; flattening it gives every suite back once at its depth |
| runs | `RunCounters`, `RunsService`, `RunRaces`, `AuditReplay`, `CounterDrift`, `DashboardService`, `RunReplica` | counters equal a recount in every reachable state, lifecycle over whole traces, exactly when overlapping calls keep both and a finished run stays as it is, the log rebuilds the state, drift conservation and the exact guard of each commit under interleaving, dashboard sums equal a recount, a patched browser copy converges |
| sessions | `AuthService`, `RefreshRace`, `ApiClient`, `RefreshProtocol` | token families, reuse detection, exactly when overlapping refreshes keep a family single and a dead family dead, and the shared refresh of the browser composed with the server under every interleaving |
| tenancy | `TenantExtension` | noninterference of organisations as a property of the argument rewrite, and exactly which calls escape it |
| members | `Memberships`, `MembershipRaces` | last administrator and invitations used once over all sequences, and exactly when they survive overlapping requests |
| others | `RunPresence`, `AuditPaging` | presence as a set of facts, complete paging |

## How the model is built

Services are classes over their tables; each method is proved equal to a function of the old state, and
the results about sequences are lemmas over those functions (`Step`, `Run`, `Next`, `After`, `StateAt`). Ids and tokens
are numbers drawn from counters, which stands for fresh random ids; a token row is found by the token itself,
which stands for an injective hash. In the service modules a call takes effect at once. `SuiteRaces`,
`RunRaces`, `CounterDrift`, `RefreshRace`, `RefreshProtocol` and `MembershipRaces` split calls into the reads and writes of
the program, which runs its transactions without isolating reads from other writers, and interleave them
freely; steps of a call that nothing interrupts amount to the call that takes effect at once (the lemmas named
`Uninterrupted…` and `AtomicRecordIsReadThenCommit`). What a single call stores is told field by field beside
its service. The moment of a call is a parameter. The suite tables, the run tables and the membership tables are
those of one organisation or carry their organisation in each row; the automatic scoping of queries is its own
module.

## Where the code and its documents differ

- The glossary promises a suite tree of at most three levels (UBIQUITOUS_LANGUAGE.md:69). A move
  only looks at the depth of the new parent, so a moved subtree can end deeper: `UpdateCanExceedLimit` reaches
  this with five requests, and `UpdateKeepsDepthIff` says exactly when the limit survives. Creating and removing
  keep it as long as requests do not overlap; a suite created under a parent that moves meanwhile exceeds it
  (`LateCreateExceedsLimit`), and `LowThroughoutIff` says exactly when the limit survives every interleaving.
- A comment credits a foreign key with preventing cycles (backend/src/suites/lib/suite-tree-rules.ts:16). The
  check of a move and its write are separate, so two moves that cross close a cycle in which every reference is in
  place (`CrossingMovesCloseCycle`); the suites stay a forest exactly when each write would still pass the cycle
  test (`ForestThroughoutIff`).
- DATA-MODEL.md:374 says that the counters cannot drift under contention. The previous result is read before
  the write without isolation, so two overlapping recordings of one case can count twice (`OverlapDrifts`).
  The counters stay exact exactly when each commit overwrites the result it read (`ExactThroughoutIff`);
  `DriftIsImbalance` says by how much they are off, and `ExclusiveCasesStayExact` that recordings which do not
  overlap on a case are safe. The "before" of each log entry is the "after" of the one before it under the same
  condition (`HandsOverIff`).
- A finished run is meant to stay as it is. Recordings and status changes both read the run's status before they
  write: a start that overlaps an abort makes an aborted run run again with its completion date set
  (`StaleStartReopensRun`), and a recording that overlaps the completion rewrites who recorded a case
  (`LateConfirmationChangesRecorder`). A finished run with all its case rows stays as it is exactly when no
  recording still open changes its row or the counters and no status change still open changes the run
  (`FrozenThroughoutIff`); it is enough that none is open when the run finishes (`FinishedAloneStaysFrozen`). The
  tables stay coherent and move only forward exactly when each recording finds the result it read and leaves
  finished runs alone, and each status change is still allowed or changes nothing (`KeptThroughoutIff`).
- A refresh reads the token and rotates it in separate steps, so two overlapping refreshes of one token leave
  two usable tokens (`InterleavedRefreshesSplitFamily`), and a refresh that is open while its family is revoked
  gives it a usable token again (`OpenRefreshRevivesFamily`). Families stay single exactly when each rotation finds
  its token unrevoked or its family dead (`SingleThroughoutIff`), dead families stay dead exactly when none of
  their tokens is rotated by an open refresh (`DeadThroughoutIff`), and refreshes of one family that do not overlap
  are safe (`RefreshesAloneStaySingle`). The browser's shared refresh rules the overlap out for its own tokens
  (`SharedRefreshIsSafe`).
- The count of remaining administrators and the demotion are separate as well, so two demotions can remove both
  administrators (`ConcurrentDemotionsLeaveNone`). Organisations keep an administrator exactly when each demoting
  or removing write still finds another one (`StaffedThroughoutIff`); it is enough that a demotion starts only
  while another administrator has none open against it (`SecureStartsKeepStaffed`).
- The status of an invitation is read before the transaction that accepts it and before the update that revokes
  it, so a revoked invitation can still give a membership (`RevokedInvitationStillJoins`). It is used once and then
  stays as it is exactly when each acceptance finds it pending and no revocation finds it accepted (`UsedOnceIff`).
- The message that follows a cleared result names the user who cleared it, while the stored recorder is empty
  (`RecorderAgreesIffNotPending`).
- The tenant rewrite overwrites the organisation of inserted data but not of updated data, so an update, a bulk
  update or the update part of an upsert can hand a row to another organisation (`UpdateHandsRowOver`);
  `ScopedConfinedIff` says exactly which calls leave the rows of others alone.

## Model

| member | source | states |
|---|---|---|
| SuiteTreeRules.AncestorChain | backend/src/suites/lib/suite-tree-rules.ts:18-29 | for any edge list, cyclic and dangling ones included, the walk ends and returns the repetition-free chain of parents that stops only at a root or before a repeat |
| SuiteTreeRules.LastEdgeWins | backend/src/suites/lib/suite-tree-rules.ts:19 | the parent map built from an edge list has the last parent listed for each id and no other ids |
| ParentWalk.ChainIsTheAncestorChain | backend/src/suites/lib/suite-tree-rules.ts:18-29 | that chain is the only sequence with these properties |
| ParentWalk.RootedIffNoCycleAbove | backend/src/suites/lib/suite-tree-rules.ts:18-29 | a parent chain fails to reach a root exactly when a node on it lies on a cycle |
| ParentWalk.AcyclicIffAllRooted | backend/src/suites/lib/suite-tree-rules.ts:18-29 | a parent map has no cycle if and only if every chain reaches a root |
| SuiteTreeRules.ExceedsMaxDepth | backend/src/suites/lib/suite-tree-rules.ts:31-34 | true exactly when a child of the parent would be below level three |
| SuiteTreeRules.CreatesCycle | backend/src/suites/lib/suite-tree-rules.ts:36-44 | true exactly when the moved suite is the new parent or one of its ancestors, and on an acyclic forest exactly when the re-parenting would close a cycle |
| ParentWalk.MoveCreatesCycleIff | backend/src/suites/lib/suite-tree-rules.ts:36-44 | the cycle test is exact for every acyclic parent map |
| ParentWalk.MoveChain | backend/src/suites/suites.service.ts:83-98 | a move shifts every node below the moved one by the same number of levels and changes no other chain |
| ParentWalk.MoveKeepsLimitIff | backend/src/suites/suites.service.ts:166-195 | a depth limit survives a move exactly when new parent's depth plus height of the moved subtree stays within it |
| ParentWalk.RemoveKeepsForest | backend/src/suites/suites.service.ts:114-134 | deleting a subtree leaves a closed acyclic forest in which every survivor keeps its chain |
| SuitesService.SuitesService.Create | backend/src/suites/suites.service.ts:46-67 | outcome and new tables of a creation, rejected parents included; the forest is kept |
| SuitesService.CreateStoresRequest | backend/src/suites/suites.service.ts:46-67 | which errors a creation reports, and that an accepted one stores every requested field in a fresh row, position 0 if none was named |
| SuitesService.SuitesService.Update | backend/src/suites/suites.service.ts:69-112 | outcome and new tables of an update: rules applied only to a real move under a suite, absent fields kept; the forest is kept |
| SuitesService.UpdateStoresRequest | backend/src/suites/suites.service.ts:69-112 | which errors an update reports, and that an accepted one changes only its row, keeps id and creator, and gives each field the requested value if it is named and the old value if it is left out |
| SuitesService.SuitesService.Remove | backend/src/suites/suites.service.ts:114-134 | the level-by-level cascade deletes precisely the subtree; the forest is kept |
| SuitesService.RemoveStoresDeletion | backend/src/suites/suites.service.ts:115-133 | a removal needs the suite and logs it; a refused one changes nothing |
| SuitesService.SuitesService.AssertParentIsUsable | backend/src/suites/suites.service.ts:166-195 | which problem is reported first: missing parent, cycle, depth |
| SuitesService.ForestSafety | backend/src/suites/suites.service.ts:46-134 | every sequence of create, update and remove keeps the suites acyclic and without dangling parents |
| SuitesService.UpdateAcceptsIff | backend/src/suites/suites.service.ts:82-98 | a move under a suite is accepted exactly when that suite exists, the result is acyclic and the suite is above level three |
| SuitesService.UpdateDepthLaw | backend/src/suites/suites.service.ts:82-98 | depth of every suite after an accepted update, and that a moved suite itself lands within the limit |
| SuitesService.CreateKeepsDepth | backend/src/suites/suites.service.ts:46-67 | creating never exceeds three levels |
| SuitesService.RemoveKeepsDepth | backend/src/suites/suites.service.ts:114-134 | removing never exceeds three levels |
| SuitesService.UpdateKeepsDepthIff | backend/src/suites/suites.service.ts:187-193 | an accepted update keeps three levels exactly when it names no parent or the moved subtree's height fits below the one it names |
| SuitesService.UpdateCanExceedLimit | backend/src/suites/suites.service.ts:187-193 | four creations and one accepted move reach a suite at depth four |
| SuitesService.RemoveCascades | backend/src/suites/suites.service.ts:114-134 | after a removal exactly the suites not below the removed one remain, unchanged, and none points at it |
| SuiteRaces.WriteKeepsForestIff | backend/src/suites/suites.service.ts:46-98 | one write of a checked creation or update keeps the forest exactly when the suite is not above the parent it gets at that moment |
| SuiteRaces.ForestThroughoutIff | backend/src/suites/suites.service.ts:46-112 | with check and write split, over every interleaving the suites are a forest after every prefix if and only if each write still passes the cycle test |
| SuiteRaces.WriteKeepsDepthIff | backend/src/suites/suites.service.ts:166-195 | one write keeps three levels exactly when what it stores fits below the parent it gets at that moment |
| SuiteRaces.LowThroughoutIff | backend/src/suites/suites.service.ts:46-112 | over every interleaving the suites are a forest of at most three levels after every prefix if and only if each write passes the cycle test and fits |
| SuiteRaces.LateCreateExceedsLimit | backend/src/suites/suites.service.ts:46-67 | a suite created under one that is moved a level down in between ends at depth four |
| SuiteRaces.CrossingMovesCloseCycle | backend/src/suites/lib/suite-tree-rules.ts:16 | two moves that pass their checks and cross end as each other's parents with every reference in place |
| SuiteRaces.UninterruptedUpdate | backend/src/suites/suites.service.ts:69-112 | an update whose check and write follow each other is the one that takes effect at once |
| SuiteRaces.UninterruptedCreation | backend/src/suites/suites.service.ts:46-67 | so is a creation |
| AssembleSuiteTree.AssembleSuiteTree | backend/src/suites/lib/assemble-suite-tree.ts:22-49 | for any list with distinct ids the linked and sorted objects are fresh and spell out the forest of the list |
| AssembleSuiteTree.LinkNodes | backend/src/suites/lib/assemble-suite-tree.ts:36-45 | after the pass every children list holds its children in list order, and parentless or dangling nodes are the roots |
| AssembleSuiteTree.SortByPositionRecursive | backend/src/suites/lib/assemble-suite-tree.ts:51-54 | the recursive in-place sort ends even beside cyclic parts, sorts every list below its argument and touches no other |
| AssembleSuiteTree.SortedLinksRepresent | backend/src/suites/lib/assemble-suite-tree.ts:51-54 | objects whose lists are sorted at every level represent the nested forest |
| SuiteForest.ForestIsTheFaithfulOne | backend/src/suites/lib/assemble-suite-tree.ts:22-54 | the forest is the only one whose every sibling list is complete, correctly parented and stably sorted by position |
| SuiteForest.FaithfulSpelledOut | backend/src/suites/lib/assemble-suite-tree.ts:22-54 | told by the flat list alone: a sibling list holds exactly the nodes naming the parent, at the top those naming none or a missing one, with their fields, by position and then by place in the list |
| SuiteForest.SortIdsIsOrdered | backend/src/suites/lib/assemble-suite-tree.ts:52 | sorting by position keeps the elements and breaks ties by place in the list |
| FlattenSuiteTree.ForestHoldsRooted | backend/src/suites/lib/assemble-suite-tree.ts:22-49 | the tree holds every node whose parent chain ends, once, at the level of its chain, and no other node |
| FlattenSuiteTree.MissingIffCyclic | backend/src/suites/lib/assemble-suite-tree.ts:36-45 | a listed node is missing exactly when it is on or below a cycle |
| FlattenSuiteTree.RoundTrip | frontend/src/features/suites/api.ts:35-43 | on an acyclic list with closed references flattening the assembled tree is a permutation of the list, each entry at its ancestor chain's length minus one |
| FlattenSuiteTree.NestUndoesFlatten | frontend/src/features/suites/api.ts:35-43 | the tree can be read back from the order and the indentation of the flattened list |
| SuiteTreeView.TreeShowsEverySuite | backend/src/suites/suites.service.ts:39-44 | after any sequence of requests the flattened tree shows every stored suite once under its current name and depth |
| RunCounters.ClampsBiteOnlyOnOverflow | backend/src/runs/lib/run-counters.ts:31-45 | the pass-rate clamp is the identity; the progress clamp changes something exactly when more results than cases are counted |
| RunCounters.RatiosAreShares | backend/src/runs/lib/run-counters.ts:39-45 | progress times total is the number of counted cases and pass rate times counted cases the number of passed ones, zero when there is nothing to divide by, and progress is one beyond the total |
| RunCounters.NetChange | backend/src/runs/runs.service.ts:401-409 | the delta object holds the net change of each counter, zero for re-recording the same result |
| RunCounters.AddAll | backend/src/runs/runs.service.ts:411-417 | applying the delta entry by entry, in any order, adds each net change once |
| RunsService.RunsService.ApplyCounterShift | backend/src/runs/runs.service.ts:395-422 | exactly the counters of the two results move, and only in this run |
| RunsService.RunsService.Create | backend/src/runs/runs.service.ts:124-186 | outcome and new tables of a creation with its error order; coherence is kept |
| RunsService.CreateRefusedIff | backend/src/runs/runs.service.ts:124-177 | a creation is refused exactly for no chosen case, a named user who is no member, or one named twice, in this order, and stores nothing then |
| RunsService.CreateStoresRequest | backend/src/runs/runs.service.ts:151-185 | an accepted creation stores a planned run with name, creator and total, and assigns exactly the named users to it |
| RunsService.CreateStoresCases | backend/src/runs/runs.service.ts:159-169 | each new case row is a pending copy of its source at its place, without comment, recorder or date |
| RunsService.SelectedKeepsOrder | backend/src/runs/runs.service.ts:134-137 | chosen cases keep the order of the listing |
| RunsService.RunsService.RecordResult | backend/src/runs/runs.service.ts:194-250 | outcome and new tables of a recording with its error order; coherence is kept |
| RunsService.RecordStoresRequest | backend/src/runs/runs.service.ts:194-250 | when a recording is refused and why, and for an accepted one the new value of every field of the case, the two counters that move, and the log entry |
| RunsService.RunsService.UpdateStatus | backend/src/runs/runs.service.ts:267-291 | outcome and new tables of a status change; coherence is kept |
| RunsService.StatusStoresRequest | backend/src/runs/runs.service.ts:267-291 | the four allowed transitions, both dates after each, and that nothing else of the run changes |
| RunsService.RunsService.UpdateAssignees | backend/src/runs/runs.service.ts:307-336 | outcome and new tables of a replacement of assignees; coherence is kept |
| RunsService.RunsService.AssertAssigneesAreMembers | backend/src/runs/runs.service.ts:425-440 | comparing the two counts decides whether all named users are members |
| RunsService.RunsStayCoherent | backend/src/runs/runs.service.ts:124-304 | in every reachable state each counter equals the number of the run's cases with that result, the total equals the number of its cases, recorder and date are empty exactly for pending cases, completion date set exactly in terminal states, and planned runs hold only pending results |
| RunsService.RunsEvolve | backend/src/runs/runs.service.ts:194-304 | between any two moments status only moves forward, dates once set stay, snapshots never change, and a finished run is frozen with its results and counters |
| RunsService.SnapshotsAreKept | backend/src/runs/runs.service.ts:119-169 | a created run holds a pending copy of each chosen case in order and keeps it through all later calls, edits and deletions of the original cases and suites included |
| RunsService.SelectedExactly | backend/src/runs/runs.service.ts:126-138 | a case is chosen once if it or its suite is named, and otherwise not at all |
| RunsService.RemainingExactly | backend/src/cases/cases.service.ts:140-159 | deleting a case, or the suites it is in, takes away exactly the cases it is about |
| RunsService.SourcesStoreRequest | backend/src/cases/cases.service.ts:72-138 | a created case is appended with the requested fields; an edit changes only the named fields of its case |
| RunsService.CoherentRatios | backend/src/runs/lib/run-counters.ts:39-45 | in coherent states no counter is negative, the uncounted cases are the pending ones and both clamps are the identity |
| RunsService.DecrementIsCovered | backend/src/runs/runs.service.ts:407-417 | a counter about to be decremented is at least one |
| RunsService.SameResultKeepsCounters | backend/src/runs/runs.service.ts:403-420 | recording the result a case already has leaves every run row unchanged |
| RunsService.AssigneesReplaced | backend/src/runs/runs.service.ts:307-332 | afterwards exactly the named users are assigned to the run and other runs keep theirs; refused unless all are members named once |
| AuditReplay.AuditRebuildsState | backend/src/runs/runs.service.ts:178-289 | from empty tables, replaying the log of any sequence of calls, given the run of each case, rebuilds every result, status and counter, totals included |
| AuditReplay.EntriesHandOver | backend/src/runs/runs.service.ts:242-289 | in the log of any sequence of calls from empty tables, consecutive entries about one case's result or one run's status agree: before of the later is after of the earlier |
| CounterDrift.DriftIsImbalance | backend/src/runs/runs.service.ts:212-240 | with read and write split, over every interleaving a counter is off by the overwritten results minus the read results of the commits |
| CounterDrift.ExactIffBalanced | backend/src/runs/runs.service.ts:212-240 | the counters end exact if and only if overwritten and read results balance per counter |
| CounterDrift.NextExactIff | backend/src/runs/runs.service.ts:223-240 | a commit on exact counters leaves them exact exactly when the result it read is still in place |
| CounterDrift.ExactThroughoutIff | backend/src/runs/runs.service.ts:212-240 | over every interleaving the counters are exact after every prefix if and only if each commit overwrites the result it read |
| CounterDrift.HandsOverIff | backend/src/runs/runs.service.ts:223-247 | over every interleaving each log entry's before is the after of the entry before it about the same case, or the first result, if and only if each commit overwrites the result it read |
| RunRaces.MoveInTimeIff | backend/src/runs/runs.service.ts:270-283 | a late status write respects forward status, kept dates and fitting dates exactly when its transition is still allowed or it changes nothing |
| RunRaces.KeptThroughoutIff | backend/src/runs/runs.service.ts:200-291 | with the reads of status, case and run and the writes split, over every interleaving the tables are coherent and have only moved forward after every prefix if and only if each recording finds the result it read and leaves a finished run alone, and each status change is still allowed or changes nothing |
| RunRaces.FrozenThroughoutIff | backend/src/runs/runs.service.ts:200-291 | a finished run and all its case rows stay as they are through every interleaving if and only if no recording still open changes its row or the counters and no status change still open changes the run |
| RunRaces.FinishedAloneStaysFrozen | backend/src/runs/runs.service.ts:200-291 | a run that finishes while no call on it is open stays as it is whatever follows |
| RunRaces.StaleStartReopensRun | backend/src/runs/runs.service.ts:267-291 | a start and an abort that both read the planned run make the aborted run run again with its completion date set |
| RunRaces.LateConfirmationChangesRecorder | backend/src/runs/runs.service.ts:223-240 | a recording that overlaps the completion rewrites recorder and date of a case of the finished run |
| RunRaces.UninterruptedRecording | backend/src/runs/runs.service.ts:200-250 | a recording whose steps follow each other is the one that takes effect at once, refused or not |
| RunRaces.UninterruptedStatusChange | backend/src/runs/runs.service.ts:269-291 | so is a status change |
| CounterDrift.ExclusiveCasesStayExact | backend/src/runs/runs.service.ts:212-240 | recorders that never overlap on a case keep the counters exact |
| CounterDrift.OverlapDrifts | DATA-MODEL.md:374 | a trace of two overlapping recordings of one case that counts one result twice |
| CounterDrift.AtomicRecordIsReadThenCommit | backend/src/runs/runs.service.ts:200-250 | the atomic transaction is a read directly followed by its commit |
| DashboardService.Summarise | backend/src/dashboard/dashboard.service.ts:71-88 | the accumulation loop over status groups yields the sums over all runs and the numbers of active and completed runs |
| DashboardService.DashboardIsRecount | backend/src/dashboard/dashboard.service.ts:71-108 | in coherent states the summed counters are a recount of all cases by result and the derived difference is the number of pending cases |
| DashboardService.SummaryOf | backend/src/dashboard/dashboard.service.ts:102-108 | the result distribution equals the recount, the maximum with zero never bites, and the five numbers add up to all cases |
| RunReplica.QueryCache.OnEvent | frontend/src/features/runs/use-run-socket.ts:70-106 | what each room message changes in the two cache entries, presence changing neither, and that an entry never fetched stays absent |
| RunReplica.MessageChanges | frontend/src/features/runs/cache.ts:18-73 | a recorded case changes four fields of its own item, a progress message the ratios, an assignment the assignees, and nothing else moves |
| RunReplica.RoomHears | backend/src/runs/runs.service.ts:252-334 | what a message carries after each accepted call, and that refused calls and other runs send none |
| RunReplica.QueryCache.PatchRunCaseResult | frontend/src/features/runs/cache.ts:18-40 | only the patched case's four fields change, in place |
| RunReplica.ReplicaConverges | frontend/src/features/runs/cache.ts:18-73 | cases and detail fetched by two requests at moments of their own at or after the joining of the room and patched by the messages of all commits since the joining in order agree with the tables in cases, results, comments, dates, counters, ratios and assignees, and in recorders of cases that are not pending |
| RunReplica.LateResponseStaleIff | frontend/src/features/runs/cache.ts:24-39 | cases read before a recording and answered after its message are stale exactly when the recording changed something they show |
| RunReplica.RecorderAgreesIffNotPending | backend/src/runs/runs.service.ts:252-262 | after a recording the copied recorder is the stored one exactly when the result is not pending |
| AuthService.AuthService.Refresh | backend/src/auth/auth.service.ts:100-153 | outcome and new tables of a refresh: unknown, reused, expired or rotated |
| AuthService.AuthService.Logout | backend/src/auth/auth.service.ts:155-162 | revokes the caller's own live token and otherwise does nothing |
| AuthService.AuthService.IssueTokenPair | backend/src/auth/auth.service.ts:172-191 | a fresh token row in the given family, or in a fresh family |
| AuthService.LoginIssuesToken | backend/src/auth/auth.service.ts:82-93 | a login opens a fresh family with one fresh token for seven days and leaves all other rows alone |
| AuthService.LogoutRevokesOwnToken | backend/src/auth/auth.service.ts:155-162 | a logout revokes the named token if it is the caller's own and live, and otherwise changes nothing |
| AuthService.ReuseRevokesFamily | backend/src/auth/auth.service.ts:112-133 | a reuse revokes exactly the live tokens of the family, now, and logs it |
| AuthService.RefreshRotatesIff | backend/src/auth/auth.service.ts:100-153 | when a refresh succeeds and everything it changes; when it reports reuse; that other failures change nothing |
| AuthService.FamiliesStaySingle | backend/src/auth/auth.service.ts:100-191 | over all sequences of calls each family has at most one live token and a revocation is final |
| AuthService.SecondPresentationKillsFamily | backend/src/auth/auth.service.ts:112-133 | presenting a revoked token, however it was revoked and at any later moment, is refused as reuse and leaves its family without a live token for good |
| RefreshRace.RotationSingleIff | backend/src/auth/auth.service.ts:143-152 | the rotation of a token read as usable keeps every family single exactly when the token is still unrevoked or its family dead |
| RefreshRace.SingleThroughoutIff | backend/src/auth/auth.service.ts:102-152 | with read and rotation split, over every interleaving with all other calls every family has at most one live token after every prefix if and only if each rotation meets that condition |
| RefreshRace.DeadThroughoutIff | backend/src/auth/auth.service.ts:112-152 | a family without a live token stays so after every prefix if and only if no refresh still open rotates one of its tokens |
| RefreshRace.RefreshesAloneStaySingle | backend/src/auth/auth.service.ts:100-153 | refreshes of one family that never overlap keep every family single, whatever else is interleaved |
| RefreshRace.InterleavedRefreshesSplitFamily | backend/src/auth/auth.service.ts:102-152 | two refreshes that both read before either rotates leave two live tokens after the second rotation |
| RefreshRace.OpenRefreshRevivesFamily | backend/src/auth/auth.service.ts:143-162 | a refresh that is open while its user logs out gives the dead family a live token again |
| RefreshRace.UninterruptedRefresh | backend/src/auth/auth.service.ts:100-153 | a refresh whose read and rotation follow each other is the one that takes effect at once |
| ApiClient.AuthStore.SetTokens | frontend/src/stores/auth-store.ts:36-37 | overwrites both tokens and keeps the user |
| ApiClient.AuthStore.ClearAuth | frontend/src/stores/auth-store.ts:38-44 | empties the session |
| ApiClient.ApiClient.OnRequest | frontend/src/lib/api-client.ts:18-24 | a request leaves with the access token of the moment |
| ApiClient.ApiClient.OnResponse | frontend/src/lib/api-client.ts:60-90 | the first 401 of a request joins the refresh in flight or starts the only one; everything else ends it |
| ApiClient.ApiClient.RefreshAccessToken | frontend/src/lib/api-client.ts:35-42 | posts the stored refresh token, or settles with null without one |
| ApiClient.ApiClient.OnRefreshAnswer | frontend/src/lib/api-client.ts:38-48 | a pair replaces both tokens, any failure signs out |
| ApiClient.ApiClient.OnResume | frontend/src/lib/api-client.ts:74-78 | a waiting request is sent once more with the newest token, or rejected |
| RefreshProtocol.RequestLeaves | frontend/src/lib/api-client.ts:18-24 | a request goes out once with the access token of the moment, and nothing else changes |
| RefreshProtocol.AnswerEndsRequest | frontend/src/lib/api-client.ts:69-90 | an answer that is no first 401 outside the auth endpoints ends the request and touches nothing else |
| RefreshProtocol.AnswerJoinsRefresh | frontend/src/lib/api-client.ts:69-74 | with a refresh in flight a first 401 waits for that one |
| RefreshProtocol.AnswerStartsRefresh | frontend/src/lib/api-client.ts:35-74 | without one it starts the refresh with the stored token, or with null if there is none |
| RefreshProtocol.RefreshIsSettled | frontend/src/lib/api-client.ts:38-48 | a pair replaces both tokens and settles the promise with the access token, any failure signs out and settles it with null |
| RefreshProtocol.WaitingIsResumed | frontend/src/lib/api-client.ts:74-90 | a waiting request is sent once more with the newest token if its refresh settled with a token, and otherwise ends unsent |
| RefreshProtocol.SentAgainAfterToken | frontend/src/lib/api-client.ts:60-90 | over every trace a request that went out again was resumed when its refresh had settled with a token |
| RefreshProtocol.ServerReadsCall | backend/src/auth/auth.service.ts:100-112 | what the server's read of a call, on its way or given up, finds and changes |
| RefreshProtocol.ServerActsOnCall | backend/src/auth/auth.service.ts:112-153 | what the second half of a refresh changes and answers |
| RefreshProtocol.SharedRefreshIsSafe | frontend/src/lib/api-client.ts:26-92 | under every interleaving, with calls the browser has given up still processed later, no refresh token is presented twice, the server never sees a revoked token of this browser, its families keep at most one live token, at most one refresh is on the way, and no request is sent more than twice |
| RefreshProtocol.NextKeepsInv | frontend/src/lib/api-client.ts:33-92 | every single event of browser, server, network, user and other clients keeps the invariant behind this |
| RefreshProtocol.OneRefreshServesBoth | frontend/src/lib/api-client.ts:26-33 | two requests failing together can both go out again with the new token after one refresh call |
| TenantExtension.TenantNoninterference | backend/src/prisma/tenant.extension.ts:45-107 | any sequence of scoped operations leaves other organisations' rows alone, and databases that agree on the organisation's rows answer alike and keep agreeing |
| TenantExtension.ScopedExecuteSplits | backend/src/prisma/tenant.extension.ts:45-82 | a scoped operation acts on the organisation's rows as if there were no others |
| TenantExtension.RewriteKeepsTheRest | backend/src/prisma/tenant.extension.ts:45-82 | inserted rows belong to the organisation and keep every other column of the caller, in single and bulk insertions and upserts; limits and update data arrive as given |
| TenantExtension.FilterKeepsTheRest | backend/src/prisma/tenant.extension.ts:68-80 | a rewritten filter asks for the organisation and otherwise for exactly what the caller asked |
| TenantExtension.OtherModelsPassThrough | backend/src/prisma/tenant.extension.ts:15-102 | the eight scoped models, and that calls on the others reach the database unchanged |
| TenantExtension.ScopedWhereIsConfined | backend/src/prisma/tenant.extension.ts:74-80 | whatever filter a caller writes, AND, OR and NOT lists and a forged organisation included, only rows of the context's organisation can match |
| TenantExtension.ScopedWhereKeepsOwnMatches | backend/src/prisma/tenant.extension.ts:74-80 | on own rows the rewrite takes nothing away |
| TenantExtension.NoContextNoAccess | backend/src/prisma/tenant.extension.ts:95-102 | without an organisation every tenant operation fails and nothing is touched |
| TenantExtension.UpdateManyConfinedIff | backend/src/prisma/tenant.extension.ts:74-80 | a bulk update leaves others' rows alone exactly when its data names no other organisation or nothing matches |
| TenantExtension.UpdateConfinedIff | backend/src/prisma/tenant.extension.ts:74-80 | the same for an update of one row |
| TenantExtension.UpsertConfinedIff | backend/src/prisma/tenant.extension.ts:68-73 | the same for the update part of an upsert; the create part never leaves the organisation |
| TenantExtension.ScopedConfinedIff | backend/src/prisma/tenant.extension.ts:45-82 | for every operation, exactly which scoped calls leave the rows of others alone |
| TenantExtension.UpdateHandsRowOver | backend/src/prisma/tenant.extension.ts:74-80 | a scoped update by id that names another organisation succeeds and hands the row over |
| Memberships.MembershipSafety | backend/src/organizations/members.service.ts:38-101 | over all sequences every created organisation keeps an administrator and nobody is a member twice |
| Memberships.RefusedIffLastAdmin | backend/src/organizations/members.service.ts:86-101 | a demotion or removal is refused as the last administrator's exactly when it would leave none |
| Memberships.ChangesAreLocal | backend/src/organizations/members.service.ts:38-84 | an accepted role change or removal is about the user's row alone |
| Memberships.InvitationUsedOnce | backend/src/organizations/invitations.service.ts:73-142 | over all sequences of calls that take effect at once, an invitation leaves PENDING at most once and yields at most one membership |
| MembershipRaces.WriteStaffedIff | backend/src/organizations/members.service.ts:46-76 | one write leaves every organisation an administrator exactly when, if it demotes or removes, another administrator is still there |
| MembershipRaces.StaffedThroughoutIff | backend/src/organizations/members.service.ts:38-101 | with finding, counting and writing split, over every interleaving each organisation has an administrator after every prefix if and only if each demoting or removing write still finds another one |
| MembershipRaces.SecureStartsKeepStaffed | backend/src/organizations/members.service.ts:86-101 | if demotions and removals start only while another administrator has none open against it, every organisation keeps an administrator |
| MembershipRaces.FewerDemotionsThanAdmins | backend/src/organizations/members.service.ts:91-94 | fewer open demotions and removals than administrators leave an administrator that none of them is about |
| MembershipRaces.ConcurrentDemotionsLeaveNone | backend/src/organizations/members.service.ts:46-53 | a trace of two demotions that are both counted before either is written ends without an administrator |
| MembershipRaces.UsedOnceIff | backend/src/organizations/invitations.service.ts:73-142 | with reads and writes split, over every interleaving an open invitation gives at most one membership and stays as it is once settled if and only if each acceptance that makes a membership finds it pending and no revocation finds it accepted |
| MembershipRaces.RevokedInvitationStillJoins | backend/src/organizations/invitations.service.ts:91-142 | a trace in which an invitation is revoked after an acceptance has read it, and the acceptance still makes a member |
| MembershipRaces.UninterruptedChange | backend/src/organizations/members.service.ts:38-84 | a role change or removal whose steps follow each other is the one that takes effect at once, refused or not |
| MembershipRaces.UninterruptedAcceptance | backend/src/organizations/invitations.service.ts:91-142 | so is an acceptance |
| MembershipRaces.UninterruptedRevocation | backend/src/organizations/invitations.service.ts:73-84 | so is a revocation |
| Memberships.OrganizationServices.Accept | backend/src/organizations/invitations.service.ts:91-142 | outcome and new tables of an acceptance with its error order; soundness is kept |
| Memberships.AcceptStoresInvitation | backend/src/organizations/invitations.service.ts:91-142 | exactly when an acceptance succeeds, and that it stores one fresh membership with the invitation's organisation and role and marks only that invitation accepted |
| Memberships.OrganizationServices.Revoke | backend/src/organizations/invitations.service.ts:73-84 | only a pending invitation of the organisation is revoked; soundness is kept |
| Memberships.RevokeStoresStatus | backend/src/organizations/invitations.service.ts:73-84 | exactly when a revocation succeeds, and that it changes only that invitation's status |
| Memberships.OrganizationServices.Invite | backend/src/organizations/invitations.service.ts:30-57 | a fresh pending invitation with its expiry; soundness is kept |
| Memberships.InviteStoresRequest | backend/src/organizations/invitations.service.ts:30-57 | the invitation carries email and role as requested and is open for seven days |
| Memberships.OrganizationServices.UpdateRole | backend/src/organizations/members.service.ts:38-62 | outcome and new tables of a role change; soundness is kept |
| Memberships.OrganizationServices.Remove | backend/src/organizations/members.service.ts:64-84 | outcome and new tables of a removal; soundness is kept |
| Memberships.OrganizationServices.CreateOrganization | backend/src/organizations/organizations.service.ts:51-75 | the creator is the first administrator; soundness is kept |
| Memberships.CreateStoresCreator | backend/src/organizations/organizations.service.ts:51-75 | the creator is the only member of the new organisation, as an administrator |
| RunPresence.RunPresenceService.Join | backend/src/runs/run-presence.service.ts:16-23 | adds one fact, replacing an earlier one of the same socket in the room |
| RunPresence.RunPresenceService.Leave | backend/src/runs/run-presence.service.ts:25-30 | drops the socket's fact in the room and stores no empty room |
| RunPresence.RunPresenceService.LeaveAll | backend/src/runs/run-presence.service.ts:33-40 | drops the socket everywhere, touches no other, and reports each room that held it once |
| RunPresence.RunPresenceService.List | backend/src/runs/run-presence.service.ts:43-51 | one entry per user with a socket in the room |
| RunPresence.FactsDetermineRooms | backend/src/runs/run-presence.service.ts:14 | without empty rooms the nested maps are determined by their facts |
| AuditPaging.PagingIsComplete | backend/src/audit/audit-query.service.ts:13-50 | following the cursors shows exactly the rows that passed the filter at the first fetch, in order, in max(1, ceil(n / take)) fetches, while newer rows keep arriving |
| AuditPaging.NextRemaining | backend/src/audit/audit-query.service.ts:30-48 | one page shows the next take rows, has a cursor exactly when more remain, and the cursor continues right after them |
| AuditPaging.FilteredExactly | backend/src/audit/audit-query.service.ts:14-28 | the listing holds exactly the organisation's rows that meet every filter that is set, bounds included |

## Left out

- Everything without state of its own or with one-branch claims: request schemas, slugs, role ranks, bug reports, field diffs, the pass-rate trend and the other dashboard numbers.
- Passwords, token signing, hashing, socket transport, the database engine and the user interface.
- Suite and run rows carry only the fields that calls read or change.
- SuitesService.RemoveCascades: leaves out the test cases deleted with the suites, which are not rows of the suite table here.
- RunReplica.QueryCache.OnEvent: leaves out toasts, which are not cache entries.
- DashboardService.SummaryOf: leaves out the number of cases, the open bugs and the recent runs, which are query results passed on.
- Order of rows the database leaves open (edges, groups, rooms, presence lists) is arbitrary here, which covers every order the program can see.
- RefreshProtocol.SharedRefreshIsSafe: assumes that logging in or out does not overlap a refresh on its way, and that there is one tab; the code coordinates neither.
- TenantExtension.TenantNoninterference: assumes that update data names no organisation, that ids of inserted rows are fresh, and no nested relations; aggregation and grouping are functions of the rows a findMany would return.
- RunReplica.ReplicaConverges: assumes that the room is joined before the two requests are read and that their responses are there before any message of a later commit, since a message for an absent entry is lost (the code orders neither; LateResponseStaleIff tells the other case), and that messages arrive in commit order; the extra patch a recorder's own screen gets from its reply is left out; the status is not patched by the run screen and the refetch after a reconnect is a new fetch.
- AuditPaging.PagingIsComplete: takes the order of the log as fixed and total, since ties on the creation time are not broken by the code.
- RunsService.RunsStayCoherent: speaks of calls that take effect one at a time; the split forms are RunRaces.KeptThroughoutIff and CounterDrift.ExactThroughoutIff.
- RunsService.RunsEvolve: speaks of calls that take effect one at a time; the split forms are RunRaces.KeptThroughoutIff and RunRaces.FrozenThroughoutIff.
- AuditReplay.EntriesHandOver: speaks of calls that take effect one at a time; the split form is CounterDrift.HandsOverIff.
- RunRaces.KeptThroughoutIff: a recording's case row and counters are written as one step, since neither is visible to other calls before both are.
- SuitesService.ForestSafety: speaks of calls that take effect one at a time; the split form is SuiteRaces.ForestThroughoutIff.
- SuitesService.CreateKeepsDepth: speaks of calls that take effect one at a time; the split form is SuiteRaces.LowThroughoutIff.
- SuitesService.UpdateKeepsDepthIff: speaks of calls that take effect one at a time; the split form is SuiteRaces.LowThroughoutIff.
- AuthService.FamiliesStaySingle: speaks of calls that take effect one at a time; the split form is RefreshRace.SingleThroughoutIff.
- AuthService.SecondPresentationKillsFamily: speaks of calls that take effect one at a time; the split form is RefreshRace.DeadThroughoutIff.
- Memberships.MembershipSafety: speaks of calls that take effect one at a time; the split form is MembershipRaces.StaffedThroughoutIff. Unique slugs and user accounts are not modelled.
- Memberships.InvitationUsedOnce: speaks of calls that take effect one at a time, reading the status included; the split form is MembershipRaces.UsedOnceIff.
- Memberships.OrganizationServices.Accept: folds the read of the status, which precedes the transaction, into the call; MembershipRaces splits it.
- Memberships.OrganizationServices.Revoke: folds its read and its update into one call; MembershipRaces splits them.
- TenantExtension.ScopedWhereIsConfined: filters through relations to other models are not part of the filter language.
- Assignees are only members at the moment of assignment, as in the code; removing a member does not unassign.
