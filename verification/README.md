# Outlook MCP server: a verified model

This project models five parts of the server in Dafny and proves what they promise. Every theorem holds for
all inputs, all runs or all reachable states. `dafny verify dfyconfig.toml` checks everything.

## What is modelled

**Re-authentication** (`Reauth*.dfy`). The auth middleware as a step system: any number of tool calls and
background sign-ins, one step for each access to shared state (the busy flag, the pointer to the current
attempt, `authenticated`, the mutex, `done`, `err`, the in-flight counter) and one for each answer of the
outside world. `Reauth` is the system itself: `EntryEdge` is the check at middleware entry, `FreeEdge` what runs
without the lock, `LockedEdge` and `FlowEdge` are `handleAuthError` and the two background flows, `Advance` is the
goroutine of an attempt. `ReauthInvariant` holds one inductive invariant; `ReauthSafety`, `ReauthReplies`,
`ReauthWarm` and `ReauthProgress` draw the conclusions that hold under any interleaving, down to every reachable
state quieting down within a computed number of untimed steps. "At most one attempt" does not hold under any
interleaving: `ReauthRace` gives the failing run, `ReauthSingleFlight` says exactly which fine-grained runs keep the
busy flag truthful (those in which no caller settles an older outcome while the published attempt is alive) and proves "at
most one" when check-and-settle is one step. Coarse runs are shown to be fine-grained runs, so everything proved for
the latter holds of them. `ReauthCalls` and `ReauthFlows` follow one call along every branch, from entry to reply,
while nobody else moves: which answer of the outside world leads to which reply and what state it leaves.
`ReauthObjects` gives the mutable objects and ties their methods to the step system.
`ReauthAccounts` runs tool calls and account operations together: what the resolver stores comes from the registry of
the moment.

**Folders** (`Text`, `FolderRef`, `FolderTree`, `FolderListing`, `FolderMailbox`, `FolderFixpoint`,
`FolderProjection`). Name matching, path walking and reference resolution against a Graph that answers pages or
failures; the depth-bounded tree; the `list_folders` verb; the two JSON projections. `FolderMailbox` and
`FolderFixpoint` put a mailbox behind Graph and prove when the paths a listing prints, and the canonical paths a walk
returns, lead back to their folders.

**Accounts** (`Registry`, `RegistryObjects`, `AccountsFile`, `Restore`, `AccountLifecycle`, `AccountRestart`,
`AccountObjects`, `Resolver`). The registry as a mutable object and as a value, with accounts.json beside it; process
start with the implied default account and the restore, add (in one call or in two), login, logout, removal, each with
what it writes to the file and what happens when that fails; which accounts come back after a restart, over all runs;
the account resolver with its picker. A client handle is identified by the credential it was made from, so a client
that serves a foreign credential would be visible.

**Retry** (`Retry`). The bounded loop with explicit 64-bit wrap-around.

**Calendar, threads, search** (`Calendar`, `CalendarText`, `Order`, `Thread`, `Search`). Gregorian dates counted
day by day with the closed form beside them, date and time text in both directions, week and day windows, the default
end of an event; thread order by text shown to be order by time; document search shown to have one possible answer.

Answers of Graph, the identity platform, the user, timers and random numbers are parameters or arbitrary choices.

## Properties that hold under a condition

- Over single accesses: that at every moment at most one background attempt is alive, that it is then the published
  one, and that the busy flag is then up. All three hold throughout a run exactly when no stale settle happens in it
  (`ReauthSingleFlight.BusyIffNoStaleSettle`). `ReauthRace.FlagLoweredUnderAttempt` is a run that loses the flag,
  `ReauthRace.TwoAttemptsAtOnce` one that goes on to a second attempt.
- A path listed from the mailbox root resolves to its folder: exactly when it has a slash, is a well-known name, does
  not have the shape of a Graph id, or is that folder's own id (`FolderMailbox.ListedPathResolvesIff`).
  `FolderMailbox.IdShapedNameFails` is a mailbox where it does not.
- A path listed under a well-known name resolves: exactly when the label of that name leads to the folder, accidents
  with id-shaped paths aside (`FolderFixpoint.ListedUnderKnownIff`, and `ListedUnderKnownPathIff` for paths that start
  at a well-known name). Under any other path or name it always resolves (`FolderFixpoint.ListedUnderRefResolves`).
- A canonical path walks to itself: exactly when the walk does not start at a well-known name, or the label of that
  name leads back to it (`FolderFixpoint.CanonicalPathIff`). A label that is not itself a well-known name leads back
  exactly when a top-level folder of that name is the folder meant (`FolderFixpoint.LabelLeadsBackIff`).
  `FolderFixpoint.RealTableFails` is a mailbox with a translated folder name where "sentitems/a" does not come back.
- An account comes back after a clean restart: exactly when it is the default account implied by the configuration, or
  its label is legal and a line for it was filed and not erased since (`AccountRestart.ComesBackIff`). `AccountRestart.ImpliedDefaultIsNotFiled` is
  the account that does not, and `AccountRestart.AddedComesBackUnlessShadowed` says what an older line does.
- A throttled wait is as documented: exactly when the delay is at most 9223372036 seconds or its nanoseconds modulo
  2^64 fall between the cap and 2^63 (`Retry.ThrottledWaitIff`); `Retry.LongDelayIsNoWait` is the first delay that fails.
- A default end time reads back: exactly when it falls in a year up to 9999 (`CalendarText.DefaultEndTime`);
  `CalendarText.LastQuarterFails` is a start whose end does not.

## Where code and documentation differ

The model follows the code.

- `internal/tools/folder_ref.go:299-301` says the id-shape test is consulted only after path resolution; for a
  name without a slash the code consults it before the lookup by name (lines 130-139).
- `internal/tools/add_account.go:191-195` says the handler validates the label; the pattern is checked only when the
  account is registered, after sign-in (lines 326-329).
- `internal/auth/account_resolver.go:230-235` says only authenticated accounts are offered; the picker lists all
  (lines 322-329).
- `internal/tools/get_conversation.go:117-118` says Graph orders the messages; the handler sorts them itself
  (lines 205-206 and 275-280).

## Model

| member | source | states |
|---|---|---|
| ReauthSafety.RunKeeps | internal/auth/middleware.go:185-350 | every state of every interleaving satisfies the invariant of requests, attempts and shared fields |
| ReauthSafety.RunNeverTakesBack | internal/auth/middleware.go:206-242 | over any run `authenticated` never falls, the ready line is never unlogged, a closed attempt keeps its outcome |
| ReauthSafety.LockAndRetries | internal/auth/middleware.go:304-350 | the mutex is held exactly by the request in the critical section, every answered request has released it, and no request invokes its handler more than twice |
| ReauthSafety.NoCredentialExchange | internal/auth/account_slot.go:48-121 | an attempt authenticates with the account its own request resolved, else the one injected upstream, else the server default |
| ReauthSafety.ResolvedByOwnStep | internal/auth/account_resolver.go:95-126 | the account a request resolved was stored by a step of that same request in that run; whose account it is says ReauthAccounts.AttemptSignsInForItsAccount |
| ReauthAccounts.ResolveIntoSlot | internal/auth/account_resolver.go:95-126 | on success the slot holds authenticator, record path and method of the resolved account, on failure it is as before |
| ReauthAccounts.ResolvableIsLive | internal/auth/account_resolver.go:241-277 | whatever the resolver can return belongs to an account registered and connected at that moment |
| ReauthAccounts.AttemptSignsInForItsAccount | internal/auth/account_resolver.go:417-430 | in any run of tool calls and account operations together, an attempt signs in with authenticator, record path and method of an account its own request resolved and that was registered and connected then, else with what was injected upstream or the default |
| ReauthSafety.DefaultIsFixed | internal/auth/middleware.go:171-183 | the server default account never changes |
| ReauthSafety.ReadyLoggedOnce | internal/auth/browser_flow.go:81-94 | the ready line is logged at most once, never before `authenticated`, and is only outstanding while its winner is about to log it |
| ReauthSafety.SuccessImpliesAuthenticated | internal/auth/middleware.go:206-242 | an attempt closed without error implies `authenticated`; a call that fell through after one never takes the fresh-credential path |
| ReauthSafety.ErrorWrittenOnceReadAfterClose | internal/auth/pending.go:30-57 | an attempt's error is written exactly once before `done` closes and never read before |
| ReauthSafety.InFlightCountsFlows | internal/auth/inflight.go:32-63 | the counter equals the flows between begin and end, is never negative, and is positive while any authenticate call runs |
| ReauthSafety.RecoveryReachesHandler | internal/auth/middleware.go:194-228 | an account-domain call reaches its handler before any lock or probe, except when answered with the error of a finished failed attempt |
| ReauthReplies.ReplyMeaning | internal/auth/middleware.go:304-350 | what each kind of answer implies: no account chosen for "in progress", device code method for instructions, `authenticated` for any retry |
| ReauthReplies.RunMeans | internal/auth/devicecode_present.go:122-147 | along any run every request that is in a flow, or retries, is there for the reason the flows give |
| ReauthReplies.OnlyRefusalReauthenticates | internal/auth/middleware.go:222-258 | over any run: a call that waits for the lock, holds it, has chosen an account or called its handler twice was refused before, by the token probe or its handler |
| ReauthReplies.GoodAnswerIsTheReply | internal/auth/middleware.go:244-255 | a handler outside the lock that answers without an authentication error has answered the call: one invocation, no account chosen, nothing shared changed |
| ReauthReplies.AuthErrorGoesForTheLock | internal/auth/middleware.go:252-258 | only the handler of a call that may be retried can fail for want of authentication, and its call then goes for the lock |
| ReauthCalls.QuietEntry | internal/auth/middleware.go:197-222 | with the flag down a call passes the entry check and changes nothing |
| ReauthCalls.EntryWhileRunning | internal/auth/middleware.go:197-205 | while an attempt is unfinished an account-domain call gets its handler's answer, any other the progress message; the flag stays up |
| ReauthCalls.EntryAfterFailure | internal/auth/middleware.go:206-209 | after a failure the call lowers the flag and is answered with the failure |
| ReauthCalls.EntryAfterSuccess | internal/auth/middleware.go:206-215 | after a success it lowers the flag, confirms the credential and goes on |
| ReauthCalls.WarmCall | internal/auth/middleware.go:244-258 | with a working credential the handler is called at once; its answer is the reply unless it is an authentication error, which leads to the lock |
| ReauthCalls.RecoveryCall | internal/auth/middleware.go:222-228 | without one, an account-domain call gets its handler's answer, without probe or lock |
| ReauthCalls.ColdCallWithToken | internal/auth/middleware.go:229-237 | any other call asks for a token; with one it confirms the credential and its handler's answer is the reply |
| ReauthCalls.ColdCallWithoutToken | internal/auth/middleware.go:229-241 | without one it goes for the lock, its handler not called |
| ReauthFlows.BusyCall | internal/auth/middleware.go:310-317 | under the lock with the flag up: the progress message, nothing begun, the lock released |
| ReauthFlows.RenewedCall | internal/auth/middleware.go:324-341 | a token for the chosen account: confirmed, no attempt begun, the handler retried, its answer the reply |
| ReauthFlows.AuthCodeCall | internal/auth/middleware.go:343-345 | the method "auth_code" signs in under the lock and begins no attempt: the retry's answer, or a failure |
| ReauthFlows.CallBeginsAttempt | internal/auth/middleware.go:346-349 | any other method begins one attempt for the chosen account, published, flagged, counted and running, and waits as "browser" or the device code flow does |
| ReauthFlows.WaitRunsOut | internal/auth/browser_flow.go:96-114 | a wait that runs out leaves attempt and flag as they are; a failure for "browser" and for a code that never came, else the code again |
| ReauthFlows.CodeIsShown | internal/auth/devicecode_present.go:78-107 | a device code keeps the call waiting if its link is opened, and is the reply if not |
| ReauthFlows.AttemptEndsInTime | internal/auth/browser_flow.go:97-109 | an attempt that ends in time lowers the flag: the retry's answer after a success, a failure after a failure |
| ReauthFlows.WaitsFor | internal/auth/devicecode_flow.go:86-116 | a waiting call can be moved by its attempt's end, by a code still to come, or by its timer, and by nothing else |
| ReauthFlows.AttemptEnds | internal/auth/browser_flow.go:81-94 | the goroutine confirms the credential iff it signed in, counts down, records whether it failed, and closes |
| ReauthFlows.PromptIsSent | internal/auth/devicecode_flow.go:57-62 | only a device code attempt sends a code, once |
| ReauthWarm.WarmCallsHandlerFirst | internal/auth/middleware.go:219-245 | once the credential is confirmed, no call ever probes, locks or re-authenticates before its handler has run |
| ReauthWarm.ProbedServerCallsHandlerFirst | internal/auth/middleware.go:262-266 | so it is from the start when the startup probe succeeded |
| ReauthWarm.SilentRenewalRetries | internal/auth/middleware.go:310-341 | a renewable token is renewed silently, the handler retried once, and no attempt, flag or lock is left behind |
| ReauthProgress.NeverStuck | internal/auth/browser_flow.go:81-114 | while a call is unanswered or an attempt unfinished some step other than a timer is possible |
| ReauthProgress.EveryStateQuietsDown | internal/auth/middleware.go:185-350 | from every reachable state some run of untimed steps, no longer than the measure says, answers every call and finishes every attempt |
| ReauthProgress.LockHolderMoves | internal/auth/browser_flow.go:96-114 | the holder of the mutex can move, or the attempt it waits for can |
| ReauthProgress.SpawnedAttemptMoves | internal/auth/devicecode_flow.go:74-87 | a background goroutine never waits for anything, in particular not for the mutex |
| ReauthProgress.StepWork | internal/auth/middleware.go:185-350 | every step of a call or goroutine lowers one measure; only an arrival raises it, by 39 |
| ReauthProgress.WorkIsBounded | internal/auth/middleware.go:185-350 | a run takes at most 39 internal steps per arrived call |
| ReauthSingleFlight.BusyIffNoStaleSettle | internal/auth/middleware.go:197-207 | over a fine-grained run: in every state whatever attempt is alive is the published one and the flag is up, iff nobody settles at entry while the published attempt lives |
| ReauthSingleFlight.AtMostOneAttempt | internal/auth/pending.go:66-100 | with check-and-settle as one step: at most one live attempt, the published one, with the flag up throughout |
| ReauthSingleFlight.AtMostOneInterception | internal/auth/middleware.go:204-213 | with check-and-settle as one step: a failed attempt answers at most one entering call |
| ReauthSingleFlight.RecoveryTurnedAwayIff | internal/auth/middleware.go:197-213 | an entering account-domain call is turned away iff a finished, failed attempt is unsettled |
| ReauthSingleFlight.AtomicIsASchedule | internal/auth/middleware.go:197-213 | the one-step entry check is an uninterrupted run of the fine steps |
| ReauthSingleFlight.CoarseReachableIsReachable | internal/auth/middleware.go:197-213 | every state reachable with one-step entry checks is reachable by fine steps |
| ReauthRace.FlagLoweredUnderAttempt | internal/auth/middleware.go:197-207 | a reachable state with an attempt running and the busy flag down |
| ReauthRace.TwoAttemptsAtOnce | internal/auth/middleware.go:197-207 | a reachable state with two attempts running |
| ReauthObjects.PendingAuthAttempt.Finish | internal/auth/pending.go:54-57 | records the outcome and closes `done`, once |
| ReauthObjects.AuthMiddlewareState.Begin | internal/auth/pending.go:66-71 | publishes a fresh open attempt and raises the flag, as the publishing and raising accesses of the step system do |
| ReauthObjects.AuthMiddlewareState.Settle | internal/auth/pending.go:77-79 | lowers the flag and leaves the pointer, as the settling access does |
| ReauthObjects.AuthMiddlewareState.PendingOutcome | internal/auth/pending.go:89-100 | running iff the newest attempt is open; its error only after it closed |
| ReauthObjects.AuthMiddlewareState.EntryCheck | internal/auth/middleware.go:197-217 | run without interruption, takes the atomic edge of the step system |
| ReauthObjects.AccountAuthSlot.StoreAuth | internal/auth/account_slot.go:48-53 | the slot then holds the value |
| ReauthObjects.AccountAuthSlot.Load | internal/auth/account_slot.go:59-63 | reports what was last stored, and none exactly when nothing was |
| ReauthObjects.ResolvedAuth | internal/auth/account_slot.go:114-121 | the slot first, then the value injected upstream, then the default, as the step system chooses |
| ReauthObjects.InFlightCounter.BeginInteractiveAuth | internal/auth/inflight.go:39-41 | one more flow is counted, as by the counting access of the step system |
| ReauthObjects.InFlightCounter.EndInteractiveAuth | internal/auth/inflight.go:47-49 | one fewer flow is counted, as when an attempt of the step system ends |
| ReauthObjects.InFlightCounter.InteractiveAuthInFlight | internal/auth/inflight.go:61-63 | true iff a flow is between begin and end |
| FolderRef.MatchFolderByName | internal/tools/folder_ref.go:242-250 | the first folder whose trimmed lower-case name agrees; none only if no name agrees |
| FolderRef.SplitFolderPath | internal/tools/folder_ref.go:221-230 | the trimmed non-blank pieces, in order |
| FolderRef.AdvanceWalk | internal/tools/folder_ref.go:176-207 | one round: well-known or top level first, children of the folder reached later, with the error cases |
| FolderRef.WalkFolderPath | internal/tools/folder_ref.go:167-210 | the loop computes the recursive walk over the segments |
| FolderRef.SegmentsOfJoin | internal/tools/folder_ref.go:209-230 | splitting undoes joining, up to trimming |
| FolderRef.WalkSameKeys | internal/tools/folder_ref.go:242-250 | walks depend only on the normalised names, and return names with the keys of the segments |
| FolderRef.WalkFailsSomewhere | internal/tools/folder_ref.go:176-207 | a failed walk has walked a prefix and failed at the next segment; its error names the canonical path reached, the segment and the names there were |
| FolderRef.KnownReference | internal/tools/folder_ref.go:107-116 | a well-known name, without case and trimmed, resolves to itself with its label as path |
| FolderRef.WalkedReference | internal/tools/folder_ref.go:117-128 | any other reference with a slash resolves as the walk of its segments, with its canonical path |
| FolderRef.EmptyReferences | internal/tools/folder_ref.go:107-128 | a blank reference and one without segments have their own errors |
| FolderRef.RawIdReference | internal/tools/folder_ref.go:130-165 | what has the shape of a Graph id, and is no well-known name or walkable path, resolves to itself, with the name Graph gives it where a path is wanted |
| FolderRef.NoRawId | internal/tools/folder_ref.go:309-322 | anything shorter or with another character is looked up by name among the top-level folders |
| Text.SameKeyIff | internal/tools/folder_ref.go:242-250 | two names agree iff they are equal up to letter case once trimmed |
| Text.TrimMeans | internal/tools/folder_ref.go:221-230 | trimming removes exactly the white space at both ends |
| FolderRef.CanonicalPathIsFixpoint | internal/tools/folder_ref.go:167-210 | over any Graph, whatever the siblings are called: a walk that does not start at a well-known name, or starts at one whose label reads back as it, has a canonical path that walks to the same folder and path |
| FolderFixpoint.CanonicalPathIff | internal/tools/folder_ref.go:167-210 | over a mailbox that is a forest: a canonical path walks to itself iff the walk does not start at a well-known name or its label leads back to it |
| FolderFixpoint.CanonicalTextIff | internal/tools/folder_ref.go:167-230 | the same for the segments of any path text |
| FolderFixpoint.LabelLeadsBackIff | internal/tools/folder_ref.go:176-192 | a label that is no well-known name leads back iff a top-level folder of that very name is the folder meant |
| FolderFixpoint.RealTableFails | internal/tools/folder_wellknown.go:18-58 | with the table of the program and a translated folder name, a walk succeeds and the walk of its canonical path fails |
| FolderRef.UnstableStart | internal/tools/folder_wellknown.go:18-58 | a well-known name whose label is not a well-known name |
| FolderTree.BuildFolderTree | internal/tools/folder_tree.go:44-80 | builds the specified tree with exactly one child request per counted-nonempty node above the bottom, in preorder |
| FolderTree.ExpandFolder | internal/tools/folder_tree.go:57-75 | one node and its subtree, or its error |
| FolderTree.ListingIs | internal/tools/folder_tree.go:44-107 | the tree is the one listing whose nodes show the folders served in order, with their ids, names, paths and counts, and carry the children, the truncation or the error of their own child request, made iff depth remains and children are counted |
| FolderTree.EveryNodeShowsAFolder | internal/tools/folder_tree.go:93-107 | every node, however deep, carries the id, name, unread, total and subfolder count of a folder Graph served |
| FolderTree.DeeperTreePruned | internal/tools/folder_tree.go:44-80 | the tree with one more level of budget, pruned, is the tree |
| FolderTree.LevelsBounded | internal/tools/list_folders.go:92-99 | the tree never has more levels than its budget |
| FolderTree.CountFolders | internal/tools/folder_node.go:139-145 | the number of nodes in preorder |
| FolderTree.ConservationOfAny | internal/tools/folder_node.go:92-145 | for any listing: roots plus counted subfolders = nodes + unexplored + unreturned + unexplained |
| FolderTree.UnexplainedIff | internal/tools/folder_node.go:104-132 | when a node's count is fully explained; never both unexplored and unreturned |
| FolderTree.Conservation | internal/tools/folder_tree.go:55-79 | without truncation and uncounted children the books balance over the whole tree |
| FolderListing.ClampInt32 | internal/tools/list_folders.go:175-184 | within bounds the number rounded down, above the maximum, below the fallback, for every number a 32-bit integer holds; always in bounds |
| FolderListing.ListFrom | internal/tools/list_folders.go:108-135 | succeeds iff the first page comes, with its error otherwise; the tree built on that page, its number of levels and the child requests issued |
| FolderListing.ListFolders | internal/tools/list_folders.go:90-135 | fails iff the reference does not resolve or the first page does not come, with which error; else root, depth and page size as asked, at most `max_depth` levels, and the child requests issued |
| FolderMailbox.ListingChains | internal/tools/folder_tree.go:93-107 | every listed node is reached from where the listing starts along its path and carries the fields of the folder there |
| FolderMailbox.LongPathResolves | internal/tools/folder_ref.go:117-128 | a path of several names, below a place its first names lead to, resolves to its folder |
| FolderMailbox.ShortTrailResolvesIff | internal/tools/folder_ref.go:113-139 | when a top-level name resolves to its folder |
| FolderMailbox.ListedPathResolvesIff | internal/tools/folder_ref.go:107-142 | the path round trip for every node of a root listing, with its exact condition |
| FolderMailbox.IdShapedNameFails | internal/tools/folder_ref.go:130-139 | a well-named mailbox whose one listed path does not resolve |
| FolderMailbox.ListedBelowTrailResolves | internal/tools/folder_tree.go:44-107 | in a listing below any folder reached from the top, printed under that folder's path, every path resolves to its folder |
| FolderFixpoint.ListedUnderRefResolves | internal/tools/list_folders.go:108-135 | in a listing rooted at a path or name that does not start at a well-known name, every path resolves to its folder |
| FolderFixpoint.ListedUnderKnownIff | internal/tools/list_folders.go:108-135 | in a listing rooted at a well-known name, paths resolve iff the label leads to the folder, or by accident as an id |
| FolderFixpoint.ListedUnderKnownPathIff | internal/tools/list_folders.go:108-135 | the same for a listing rooted at a path that starts at a well-known name |
| FolderProjection.SummaryLosesNothing | internal/tools/folder_serialize.go:51-83 | nodes have equal summaries iff they agree in ids, paths, nesting, order, flags and counts |
| FolderProjection.SummaryOfLosesNothing | internal/tools/folder_serialize.go:34-47 | listings have equal summaries iff their nodes do, and they start at the same root and are cut alike |
| FolderProjection.RawLosesOnlyPaths | internal/tools/folder_serialize.go:111-142 | nodes have equal raw projections iff they agree in all but paths |
| FolderProjection.RawOfLosesPathsAndRoot | internal/tools/folder_serialize.go:98-106 | listings have equal raw projections iff they agree in all but paths and root |
| FolderProjection.SameListingSamePreorder | internal/tools/folder_serialize.go:34-142 | such listings have the same nodes in the same preorder, so the same count |
| FolderProjection.ProjectSummary | internal/tools/folder_serialize.go:51-83 | the loops compute the summary projection |
| FolderProjection.ProjectRaw | internal/tools/folder_serialize.go:111-142 | the loops compute the raw projection |
| FolderProjection.SerializeSummaryFolders | internal/tools/folder_serialize.go:34-47 | the wrapper with the number of all nodes in preorder, root truncation and parent |
| FolderProjection.SerializeRawFolders | internal/tools/folder_serialize.go:98-106 | the wrapper with root truncation |
| Registry.Register | internal/auth/registry.go:108-127 | accepted iff the label is legal and new; adds that entry and changes no other |
| Registry.ListingFacts | internal/auth/registry.go:225-239 | the listing has every entry once, strictly by label |
| Registry.ListingUnique | internal/auth/registry.go:225-272 | whatever order the map is walked in, sorting by label gives that listing |
| RegistryObjects.AccountRegistry.Add | internal/auth/registry.go:108-127 | the object's map changes as `Register` says, or not at all |
| RegistryObjects.AccountRegistry.Remove | internal/auth/registry.go:138-148 | exactly that label is gone, or an error |
| RegistryObjects.AccountRegistry.Update | internal/auth/registry.go:204-218 | exactly that entry changes, by the callback |
| RegistryObjects.AccountRegistry.Get | internal/auth/registry.go:156-162 | finds exactly the registered labels, each as the object whose changes the registry shows |
| RegistryObjects.AccountRegistry.GetByUPN | internal/auth/registry.go:174-188 | an entry whose address matches without case; none only if no address matches |
| RegistryObjects.AccountRegistry.List | internal/auth/registry.go:225-239 | the listing, as the registered objects |
| RegistryObjects.AccountRegistry.ListAuthenticated | internal/auth/registry.go:254-272 | the connected part of the listing |
| Restore.RestoredRegistry | internal/auth/restore.go:118-138 | per label: old entries untouched, a new one from its first workable line, no others |
| Restore.RestoredAccount | internal/auth/restore.go:204-274 | a new account's identity and address are the line's, handles and paths the set-up's, and it is connected iff it may be probed, the token comes and a client is made |
| Restore.RestoredCount | internal/auth/restore.go:130-138 | the count is the number of new entries with a client |
| Restore.RestoreTwice | internal/auth/restore.go:175-191 | a second restore with the same answers returns 0 and changes nothing |
| Restore.RestoreKeepsConsistent | internal/auth/restore.go:204-274 | restore keeps the registry invariant |
| Restore.DeviceCodeNotProbed | internal/auth/restore.go:232-259 | without a record on disk a device code account is restored the same whatever the token answer |
| AccountsFile.AccountsStore.AddAccountConfig | internal/auth/accounts.go:137-146 | appends the line, or leaves the file as it is |
| AccountsFile.AccountsStore.RemoveAccountConfig | internal/auth/accounts.go:159-178 | erases every line for the label, or leaves the file as it is |
| AccountsFile.AccountsStore.UpdateAccountUPN | internal/auth/accounts.go:220-243 | the first line for the label, and no other, gets the address |
| AccountsFile.AccountsStore.PersistUPN | internal/auth/email_resolver.go:80-106 | writes an address learnt where the line has none |
| AccountsFile.SetUpnAt | internal/auth/accounts.go:220-243 | line by line: which one gets the address |
| AccountsFile.BackfillAt | internal/auth/email_resolver.go:80-106 | an address is written into the label's first line iff that line has none |
| AccountsFile.AddThenErase | internal/auth/accounts.go:137-178 | erasing undoes adding exactly when the label had no line before |
| AccountRestart.StepLines | internal/auth/accounts.go:137-243 | an operation gives a label a line or takes it away iff it is an add that registers it and reaches the file, or a removal that does |
| AccountRestart.HasLineIffOnFile | internal/auth/accounts.go:137-243 | over any run: a label has a line iff it was filed and not erased since |
| AccountRestart.ComesBackIff | cmd/outlook-local-mcp/main.go:112-137 | over any run with any failures: which labels a clean restart registers |
| AccountRestart.ImpliedDefaultIsNotFiled | cmd/outlook-local-mcp/main.go:110-127 | the implied default account is written nowhere, and gone when no longer implied |
| AccountRestart.AddedComesBackUnlessShadowed | internal/auth/restore.go:118-138 | an added account comes back as added, or as an older line for its label says |
| AccountRestart.RestartKeepsAccounts | internal/auth/restore.go:108-138 | over any run whose file accesses succeed, through any restarts: the next brings back exactly the accounts there are, with their identity up to fields a login filled in; the default account apart |
| AccountRestart.RunMirrors | internal/auth/accounts.go:137-243 | registry and file agree over such a run |
| AccountLifecycle.RunKeepsConsistent | internal/auth/registry.go:22-219 | over any sequence of operations, restarts among them: key = label, label legal, authenticated iff there is a client, made from the entry's own credential |
| AccountLifecycle.EntryUntouched | internal/auth/registry.go:108-218 | while the process runs, no operation but login, logout, removal or address lookup of the label itself changes an existing entry |
| AccountLifecycle.IdentityKept | internal/tools/login_account.go:118-190 | client, tenant and method of an account survive everything but its removal and a restart |
| AccountLifecycle.LogoutThenLogin | internal/tools/logout_account.go:87-105 | logout drops every handle and nothing else; a login afterwards gives the entry a fresh add would |
| AccountLifecycle.TwoCallAdd | internal/tools/add_account.go:233-267 | the second add call registers the first call's credential exactly when it should, whatever happened in between, and always clears the pending sign-in |
| AccountLifecycle.AddSettles | internal/tools/add_account.go:704-735 | what a call makes of an ended sign-in, and the state it leaves |
| AccountLifecycle.AddedAccount | internal/tools/add_account.go:300-347 | an add registers identity as asked, handles and paths as set up, the address as fetched, and changes no other label |
| AccountLifecycle.AddedLine | internal/tools/add_account.go:331-343 | and files one line at the end, with the address where that could be written |
| AccountLifecycle.EmailLearntOnce | internal/auth/email_resolver.go:25-61 | an address is filled in once, for an account with a client |
| AccountLifecycle.AddRefused | internal/tools/add_account.go:221-329 | each refusal of an add and when it is given; nothing changes then |
| AccountLifecycle.OthersRefused | internal/tools/login_account.go:96-150 | when a login, a logout and a removal are refused, and that nothing changes then |
| AccountObjects.RestoreAccount | internal/auth/restore.go:175-274 | the step-by-step body computes the specified restore of one line |
| AccountObjects.RestoreAccounts | internal/auth/restore.go:108-138 | the loop computes the specified restore; an unreadable file restores nothing |
| AccountObjects.PendingAccount.Finish | internal/tools/add_account.go:617-620 | the background sign-in records its result |
| AccountObjects.AddAccountState.CheckPending | internal/tools/add_account.go:704-735 | reports, and takes an ended sign-in off the map whichever way it ended |
| AccountObjects.AddAccountState.StorePending | internal/tools/add_account.go:746-750 | the map then holds the sign-in under its label |
| AccountObjects.AddAccountState.HandleAddAccount | internal/tools/add_account.go:221-361 | the handler's effect on registry, pending map, accounts.json and reply, with the address fetched and backfilled |
| AccountObjects.HandleLoginAccount | internal/tools/login_account.go:96-195 | the handler's effect on the registry and accounts.json, and its reply |
| AccountObjects.HandleLogoutAccount | internal/tools/logout_account.go:76-105 | the handler's effect on the registry and its reply |
| AccountObjects.HandleRemoveAccount | internal/tools/remove_account.go:66-110 | the handler's effect on the registry and accounts.json, and its reply |
| AccountObjects.ShouldAddImplicitDefault | cmd/outlook-local-mcp/main.go:228-254 | iff the configuration names a client, no line has its client and tenant, and no line is called "default" |
| AccountObjects.StartServer | cmd/outlook-local-mcp/main.go:110-137 | the registry a process starts with: the implied default, then the restore |
| Resolver.ParseFormat | internal/auth/account_resolver.go:206-228 | parsing a printed choice gives the label |
| Resolver.ChoicesDistinct | internal/auth/account_resolver.go:322-329 | no two picker lines are equal |
| Resolver.ResolvedIsLive | internal/auth/account_resolver.go:241-277 | every success is a registered, connected entry with a client of its own credential |
| Resolver.ServedAccountIsLive | internal/auth/account_resolver.go:241-396 | the same after any process start on any file and any sequence of operations, further restarts among them |
| Resolver.PickedIsPrinted | internal/auth/account_resolver.go:364-382 | picking a line resolves to the entry it was printed from if that is connected, else to the error that it is not |
| Resolver.UnknownPicked | internal/auth/account_resolver.go:364-378 | a picked line whose first word is no label is an error naming it |
| Resolver.NothingPicked | internal/auth/account_resolver.go:359-396 | every other answer is an error that tells which |
| Resolver.WithoutPicker | internal/auth/account_resolver.go:346-363 | without a picker "default" is used, if it is there and connected |
| Resolver.ChoiceShows | internal/auth/account_resolver.go:196-216 | a line shows label, address if known, and a mark unless connected |
| Resolver.NamedByLabel | internal/auth/account_resolver.go:244-262 | naming an account by its label gives it if it is connected, else the error that it is not, whatever addresses there are |
| Resolver.NamedByAddress | internal/auth/account_resolver.go:250-260 | a text that is no label but one account's address alone, without case, does the same for that account |
| Resolver.NamesNothing | internal/auth/account_resolver.go:244-262 | a text that is neither is an unknown account; an empty or non-text argument is invalid |
| Resolver.AskedOnlyWhenAmbiguous | internal/auth/account_resolver.go:241-277 | the picker's answer matters only without a parameter and with several connected accounts |
| Resolver.SoleConnectedIsUsed | internal/auth/account_resolver.go:271-273 | a single connected account is used |
| Resolver.NoneConnectedNamesAll | internal/auth/account_resolver.go:257-269 | with none connected the error names all accounts |
| Resolver.ResolveAccount | internal/auth/account_resolver.go:241-277 | the method computes the specified resolution and returns the registered object |
| Resolver.ElicitAccountSelection | internal/auth/account_resolver.go:321-396 | picker lines from the whole listing, the answer applied as specified |
| Retry.RetryGraphCall | internal/graph/retry.go:103-166 | which calls are made, why the loop ends, and each timer set |
| Retry.RunIsDetermined | internal/graph/retry.go:103-166 | those facts leave one possible run |
| Retry.RunIsBounded | internal/config/validate.go:121-130 | at most MaxRetries+1 calls, all but the last failed with 429, 503 or 504, nil iff the last succeeded |
| Retry.TransientIsRetried | internal/graph/retry.go:110-129 | an uncancelled 429, 503 or 504 ends a run only when the retries are used up; any other failure ends it at once |
| Retry.RunWaitsAsPromised | internal/graph/retry.go:131-144 | each wait of a run is positive, at most a minute and as documented |
| Retry.WaitIsAsPromised | internal/graph/retry.go:131-144 | the wait is what the header's text or the backoff asks for, capped, for validated settings and delays up to 9223372036 seconds |
| Retry.WaitAfter | internal/graph/retry.go:131-142 | the wait set after a failed attempt |
| Retry.DelayExtractedIff | internal/graph/retry.go:62-80 | a delay is extracted iff the header is that number in decimal digits, with or without a plus sign, positive and within 64 bits |
| Retry.NoDelayNamed | internal/graph/retry.go:71-80 | no header, an empty one, "0", a negative number and anything that is no number, such as a date, name no delay |
| Retry.BacksOff | internal/graph/retry.go:131-142 | a 429 without a usable header, a 503 and a 504 wait for the backoff, at most a minute |
| Retry.DelayFitsIff | internal/graph/retry.go:135-137 | the multiplication is exact iff the delay is at most 9223372036 seconds |
| Retry.ThrottledWaitIff | internal/graph/retry.go:133-142 | for a header that names a delay: exactly when the wait is positive and exactly when it is as documented |
| Retry.LongDelayIsNoWait | internal/graph/retry.go:135-137 | one second more gives a negative wait |
| Retry.DelayIsRead | internal/graph/retry.go:62-80 | a delay written in digits is read as itself |
| Retry.BackoffGrows | internal/graph/retry.go:178-182 | successive backoffs grow until the cap, whatever the jitter |
| Calendar.NumberOrdersDates | internal/tools/list_events.go:395-399 | day numbers order dates and identify them |
| Calendar.AddDaysCounts | internal/tools/list_events.go:395-421 | adding n days moves the day number by n, across months, years and leap days |
| Calendar.AddDaysTwice | internal/tools/list_events.go:413-419 | moving by m days and then by n is moving by m + n |
| Calendar.DaysBeforeYearClosedForm | internal/tools/list_events.go:395-421 | the day count agrees with the Gregorian formula |
| Calendar.NumberClosedForm | internal/tools/list_events.go:395-421 | so does the number of any day, months and leap days included |
| Calendar.ThisWeek | internal/tools/list_events.go:406-421 | this week starts on a Monday, contains today and spans seven days |
| Calendar.NextWeek | internal/tools/list_events.go:406-421 | next week starts on a Monday, spans seven days and contains the day a week from today |
| Calendar.WeeksAdjoin | internal/tools/list_events.go:406-421 | every week starts where the one before ends |
| Calendar.WeeksEqualOrDisjoint | internal/tools/list_events.go:406-421 | the weeks of two days are equal or have no day in common |
| Calendar.SameWeekIff | internal/tools/list_events.go:406-421 | a day lies in another's week iff they have the same week |
| Calendar.DaysTile | internal/tools/list_events.go:395-399 | a day is covered by its own window only, and windows adjoin |
| CalendarText.StampReadsBack | internal/tools/create_event.go:410-419 | a printed time reads back as itself |
| CalendarText.ParseDateExact | internal/tools/list_events.go:380-384 | a string is read as a date iff it is that date printed |
| CalendarText.DefaultEndTime | internal/tools/create_event.go:410-419 | the end is 1800 seconds after the start, 86400 for an all-day event, and reads back as such iff its year is at most 9999 |
| CalendarText.LastQuarterFails | internal/tools/create_event.go:410-419 | a start in the last quarter hour of 9999 whose end does not read back |
| CalendarText.EndIffReadable | internal/tools/create_event.go:410-419 | there is an end iff the start can be read |
| CalendarText.FractionDropped | internal/tools/create_event.go:410-419 | a start with a fraction of a second is read as without it |
| CalendarText.KeywordsAdjoin | internal/tools/list_events.go:365-378 | today's window ends where tomorrow's starts, this week's where next week's starts |
| CalendarText.DayKeywords | internal/tools/list_events.go:365-369 | "today" covers exactly today, "tomorrow" exactly the day after |
| CalendarText.WeekKeywords | internal/tools/list_events.go:370-378 | "this_week" is the seven days from a Monday on with today in them, "next_week" those with the day a week from today |
| CalendarText.UnknownZone | internal/tools/list_events.go:357-364 | nothing is accepted without a known zone |
| CalendarText.AcceptedIff | internal/tools/list_events.go:357-387 | only the four keywords and ISO dates are accepted, and a date gives its own day |
| CalendarText.ExpansionReadsBack | internal/tools/list_events.go:395-421 | the two texts read back as the window's midnights |
| Order.StableSortExact | internal/tools/get_conversation.go:275-280 | a stable sort has one possible result |
| Thread.TextOrderIsTimeOrder | internal/graph/mail_serialize.go:152-157 | string order of the printed times is chronological order |
| Thread.GetConversation | internal/tools/get_conversation.go:247-280 | the first max_results messages, sorted; an error only if iteration fails before enough came |
| Thread.ThreadIsChronological | internal/tools/get_conversation.go:275-280 | the thread is the one permutation of the collected messages that is in time order, undated first, and stable |
| Search.ScoreMatch | internal/docs/search.go:138-153 | 2 for a substring, 1 for a shared word, else 0 |
| Search.ContainsIff | internal/docs/search.go:139-141 | the substring test is occurrence |
| Search.SnippetIsItsLines | internal/docs/search.go:95-106 | a snippet is exactly the lines startLine..endLine |
| Search.SnippetShowsHit | internal/docs/search.go:86-93 | those lines contain the hit, with two lines of context as far as there are any |
| Search.HitOrigin | internal/docs/search.go:74-106 | every hit comes from a matching line with its score |
| Search.HitListed | internal/docs/search.go:74-106 | every line that scores has its hit |
| Search.OneHitALine | internal/docs/search.go:74-106 | as many hits in a document as lines that score |
| Search.ScoreMeans | internal/docs/search.go:138-153 | a line scores 2 iff the query occurs in it without case, at least 1 iff that or they share a word, else 0 |
| Search.FieldsAreWords | internal/docs/search.go:143-151 | the words compared are the longest runs without white space |
| Search.TracksNext | internal/docs/search.go:108-111 | the map always holds the first highest-scoring hit of each document |
| Search.AnswerIsUnique | internal/docs/search.go:118-133 | the deduplicated answer does not depend on the map's iteration order |
| Search.AnswerMeans | internal/docs/search.go:108-133 | in the answer scores fall, equal ones are ordered by slug, no document appears twice, and every document with a scoring line appears with at least that score |
| Search.SearchAll | internal/docs/search.go:61-133 | the answer: per document its first best hit, strictly ordered; or all hits, sorted |
| Search.Search | internal/docs/search.go:49-55 | a blank query finds nothing, any other is searched trimmed |

## Left out

- The Graph SDK, MSAL, OTEL, the MCP server, keychain and file storage: their answers are parameters.
- Handlers that panic or never return, and goroutines that outlive their deadline: every oracle step is assumed to happen.
- The manual auth_code flow is one step under the lock that succeeds or fails, so its instruction texts count as a failed authentication; reaching `complete_auth` is not claimed.
- Texts of messages, notifications and logs, other than the paths, picker lines and times above.
- The elicitation that precedes a browser flow: it changes nothing the model records.
- ReauthCalls.WarmCall: like the other lemmas of ReauthCalls and ReauthFlows it follows one call while nobody else moves; what other calls may do in between is in ReauthSafety and ReauthReplies.
- The advisory line about disconnected accounts: a plain case distinction on an entry.
- Unicode: case folding, trimming and word splitting are those of ASCII.
- FolderMailbox.ListedPathResolvesIff: sibling names must be non-blank, slash-free and distinct after normalisation, at most 200 a level, because the resolver looks at one page; no folder id is a well-known name, and a top-level folder called like a well-known name is the folder it denotes. Listings rooted at a raw id are not covered: their root path is only a label.
- FolderListing.ClampInt32: not-a-number is not modelled, and for numbers beyond 32 bits the value the conversion gives is the platform's choice, a parameter.
- FolderRef.CanonicalPathIsFixpoint: one direction only, since over an arbitrary Graph a misread label may end at the same folder by chance; the exact condition, over a forest, is FolderFixpoint.CanonicalPathIff.
- RegistryObjects.AccountRegistry.Update: a callback that renames the entry is allowed but leaves the registry ill-formed; no callback in the program does so. A nil entry or nil callback is not modelled.
- The registry's lock: each operation is one step; concurrent adds of one label and concurrent writers of accounts.json are not ordered by the program.
- AccountsFile.AccountsStore.AddAccountConfig: loading and saving the file succeed or fail as one; a damaged file, its permissions and the temporary file are not modelled, and neither are line fields other than label, identity and address.
- Resolver.ResolveAccount: with several entries sharing an address, which one a lookup by address returns is left open, as it is in the program.
- AccountObjects.AddAccountState.HandleAddAccount: the pending map of the login handler is never read by the program and not modelled.
- Retry.RetryGraphCall: time itself; a wait is the duration handed to the timer. Log lines are left out.
- Time zones: windows are civil dates; days whose midnight does not exist and the zone database are left out. Formatting years before 0 is modelled, reading them is not possible.
- Thread.TextOrderIsTimeOrder: times with a UTC offset other than Z, or years beyond 9999, are not covered.
- CalendarText.DefaultEndTime: fractional seconds are accepted and dropped, as printing drops them.
- Thread.GetConversation: the page iterator is the sequence of messages it delivers and whether it then fails; resolving a message id to its conversation and the choice of fields are left out.
- Verb tables, schemas, other serializers, audit, metrics and configuration loading: finite tables or plumbing.
