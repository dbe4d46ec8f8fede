# Wormhole, verified

A Dafny model of the parts of the `wormhole` command line that carry state, and proofs of
what they promise: the self-healing tunnel, the concurrency around it, and the smaller
algorithms of the command line.

`dafny verify dfyconfig.toml` checks everything.

## What is modelled

**Self-healing tunnel.** `Backoff.dfy` is one step of the jittered exponential backoff on
64-bit durations, with the schedule it generates. `RetryLoop.dfy` is the retry loop around
a Route Registry operation; `GoErrors.dfy` holds the error values it classifies, under any
chain of wrappers. `Recovery.dfy` is the recovery loop with its registration objects, whose
tunnel JWT is replaced in place, and its two flags `rotated` and `reRegistered`.
`RecoveryMachine.dfy` is a reference automaton with the phases Fresh, ReRegistered and
Rotated; the loop is proved to do exactly what the automaton does. `RecoveryTraces.dfy`
states, for an observer that sees only events, which event may come next, and proves every
trace of the automaton legal. `RecoveryBounds.dfy` and `RecoveryGuarantees.dfy` derive the
global guarantees from that.

The environment is a script: what every operation answers, what the context says when it is
read, the jitter drawn and how a sleep ended. All theorems hold for every script. Where a
script ends first, the outcome is `Retrying`, `Waiting` or `OutOfRounds`: a finite prefix
of a longer run. Registrations live in a store that the answers point into, so the
environment may hand out the same object twice, or nil.

The flag `reRegistered` is cleared by a later successful refresh. That re-registrations are
still separated by a connection does not follow from the flags alone: the observer
remembers the re-registration, and the invariant says that the phase is Fresh only if
there was none in the current outage.

**Concurrency.** `ForwarderWait.dfy` (the race between a forwarder and the context),
`TaskGroup.dfy` (Airlock and the recovery under one error group), `NamespaceLaunch.dfy`
(parent, slirp, ready reader and child) and `NamespaceExec.dfy` (command, sidecar and
context) are step systems with explicit channels, buffers and closings. A schedule is any
sequence of enabled actions (`Schedules.dfy`); the theorems hold after every schedule.

**Command line.** `TableLayout.dfy` and `TableReading.dfy` (text tables and reading them
back), `RouteResolution.dfy` (finding routes and communities, the in-place join),
`AccessRules.dfy` (comma-separated access lists), `LayeredConfig.dfy` (configuration files
and environment). `Filtering.dfy`, `Text.dfy` and `Values.dfy` are shared.

## Assumptions

- Jitter is a real number, clamped to [0, 1]; the product with the backoff is exact and its
  conversion to a duration truncates toward zero.
- `ctx.Err()` is `Canceled` or `DeadlineExceeded`; a sleep that ends early returns the
  context's error, as the default runtime's does.
- Re-registration is the closure that `openWormhole` passes to the recovery: one
  registration with retries (internal/cmd/wh/wh.go:234-236).
- `selfheal.Run` reports a cancellation to the task group only if the group's context is
  canceled. `RecoveryGuarantees.CancellationComesFromOutside` proves the recovery's share of
  this; that the collaborators do the same is assumed.
- A process is not started under a context that is over: the start fails with the context's
  error.
- Strings are sequences of Unicode characters stored as UTF-8; `len` counts the bytes.
- TOML files have been parsed into tables and scalars.

## Findings

- `RouteResolution.PanicsIff`: resolving the empty identifier against an empty registry
  indexes an empty slice. The comment at internal/routeregistry/service.go:72 says that
  case is covered; it is, for non-empty identifiers.
- `RouteResolution.JoinIsByIdIff`: the join finds a route by *prefix* of an ID (or by full
  name), so an entry whose ID continues the wanted one is taken whenever no exact entry
  comes before it, even if there is no exact entry at all. The lemma says exactly when.
- `TaskGroup.SucceedsIff`: only a cancellation by the caller is turned into success; a
  deadline that passes always ends in an error. None of the program's own callers sets a
  deadline.
- `NamespaceLaunch.CrashesIff`: if launchNetwork closes the ready channel after the reader
  has read slirp's byte and before it has passed it on, the reader sends on a closed
  channel. `CrashIsPossibleIff`: this can happen exactly if the context is not canceled
  before slirp starts and may be canceled later, or slirp may exit by itself.
  `CrashFailsSafe`: the user command is then never started.
- `NamespaceExec.CommandIsOverIff`: the join covers the sidecar, not the command, and
  `execChild` returns at the end of the context without waiting for its process. So the user
  command may still run when Exec has returned, on the command branch too, and Exec may
  report no error. The lemma says exactly when it is certain not to run.
- `RecoveryBounds.SilentRunConnectsOnce`: Piko's own forwarder always reports nil from
  `Wait`, because the error group cancels the very context that `Wait` reads next
  (vendor/github.com/andydunstall/piko/client/forwarder.go:49-57). A tunnel whose credentials
  are rejected after it was up is then never recovered: the run returns in the round that
  connected. The bounds of `BudgetIsExact` for n > 0 need a forwarder that reports its error.

## Model

| member | source | states |
|---|---|---|
| Backoff.EffectiveConfigIsOrdered | internal/cmd/wh/wh.go:225-232 | a configuration is accepted if and only if both bounds are unset or 100ms <= min <= max; what is accepted gives the backoff 0 < min <= max and is accepted again unchanged |
| Backoff.FlagsAreAcceptedIff | internal/cmd/wh/args/open.go:155-170 | with the flags' own defaults: a minimum alone is accepted if and only if it lies between 100ms and 15s, a maximum alone if and only if it is at least 100ms; two explicit zeros mean the defaults |
| Backoff.ConfigErrorIff | internal/selfheal/config.go:30-44 | which of the three complaints a rejected configuration gets |
| Backoff.NextRetryDelay | internal/selfheal/recovery.go:45-76 | no 64-bit input overflows; the backoff is the saturated double, independent of the jitter; the delay stays within the bounds and within the top tenth of the backoff |
| Backoff.JitteredBounds | internal/selfheal/recovery.go:64-75 | a delay lies between max(min, 9/10 of the backoff, rounded up) and the backoff, reaches it at full jitter, and grows with the jitter |
| Backoff.CutBounds | internal/selfheal/recovery.go:64-71 | what jitter takes off has the sign of the backoff, is at most a tenth of it, and shrinks as jitter grows |
| Backoff.CutIsShareOfTenth | internal/selfheal/recovery.go:71-71 | the cut is exactly the share of a tenth that the jitter leaves, rounded down; a whole tenth rounded down at no jitter |
| Backoff.BackoffClosedForm | internal/selfheal/recovery.go:45-62 | the k-th backoff is min(max, min * 2^k) |
| Backoff.JitterHistoryIsIrrelevant | internal/selfheal/recovery.go:118-119 | two runs with arbitrary jitter histories agree on their k-th sleep whenever they draw the same k-th jitter |
| Backoff.TotalWait | internal/selfheal/recovery.go:104-126 | the first n sleeps total between nine tenths of the backoff sum and the sum, at least n times the minimum, and the first is exactly the minimum |
| Backoff.AcceptedConfigWait | internal/selfheal/config.go:30-44 | with an accepted configuration n retries wait at least n * 100ms |
| Backoff.BackoffSumBeforeSaturation | internal/selfheal/recovery.go:45-62 | until the maximum is passed, the first n backoffs add up to min * (2^n - 1) |
| Backoff.BackoffSumClosedForm | internal/selfheal/recovery.go:45-62 | the total of any number of backoffs: min * (2^m - 1) before saturation, then one maximum each |
| GoErrors.RegistryStatusIsNotPikoRejection | internal/requester/requester.go:12-14 | the text of a Route Registry status, a 401 included, is never taken for a credential rejection by Piko |
| GoErrors.WrappingKeepsRejection | internal/piko/client.go:79-83 | a credential rejection stays recognisable under any wrapper |
| GoErrors.AuthenticationFailureIff | internal/piko/client.go:79-83 | an error is a rejection by Piko if and only if "401:" occurs in its text |
| GoErrors.EveryErrorIsUnder | internal/selfheal/recovery.go:78-91 | every error is a leaf under a chain of wrappers |
| GoErrors.RetryableIff | internal/selfheal/recovery.go:78-91 | under any wrappers: of the statuses exactly 408, 429 and 500 to 599 are retried; without a status, an unexpected end of file, a passed deadline, or anything inside a network error |
| RetryLoop.RetryRouteRegistry | internal/selfheal/recovery.go:93-127 | the loop ends at the first terminal attempt with its verdict, never calls the operation again, sleeps calls - 1 times (calls, if the sleep was cut short), and its k-th sleep is the k-th backoff with the k-th jitter |
| RetryLoop.FirstTerminal | internal/selfheal/recovery.go:104-126 | the position found is terminal and nothing before it is |
| RetryLoop.EndsAtFirstTerminalIsUnique | internal/selfheal/recovery.go:104-126 | that promise determines the loop's outcome and the numbers of calls and of sleeps |
| RetryLoop.RetryOutcome | internal/selfheal/recovery.go:104-126 | any script: the loop goes on through the transient failures, told by status and chain, and at the first other attempt returns the result, else the error of an ended context, else of the sleep, else the failure |
| RetryLoop.FirstTerminalWasUnauthorized | internal/selfheal/recovery.go:155-159 | a wrapped refresh failure is a 401 exactly when the last raw attempt was one under a live context |
| RetryLoop.RefreshUnauthorizedIff | internal/selfheal/recovery.go:250-253 | the recovery sees a 401 if and only if some attempt was a 401 under a live context and all before it were retried: no transient storm, cancellation or other error becomes a 401 |
| RetryLoop.CanceledByContext | internal/selfheal/recovery.go:110-125 | if the operation reports cancellations only when the context has ended, a canceled result means the context was seen canceled |
| Recovery.RefreshJWTWithRetry | internal/selfheal/recovery.go:147-163 | a retried refresh has the specified outcome, and sends the given JWT in each attempt up to the first terminal one |
| Recovery.RegisterRouteWithRetry | internal/selfheal/recovery.go:129-145 | a retried registration has the specified outcome |
| Recovery.RecoverRejectedCredentials | internal/selfheal/recovery.go:230-267 | does what the automaton does on every object of the heap; the only field written is the tunnel, and in it only the JWT |
| Recovery.ReactToFailure | internal/selfheal/recovery.go:305-324 | the second half of the loop body refines the automaton |
| Recovery.Iterate | internal/selfheal/recovery.go:287-324 | one iteration refines one step of the automaton, with the flags read as its phase |
| Recovery.Run | internal/selfheal/recovery.go:269-326 | the loop refines the automaton: same outcome, same events in order, same registrations left behind, no nil registration dereferenced, the flags never both set |
| RecoveryMachine.CredentialsIff | internal/selfheal/recovery.go:165-179 | a registration is usable if and only if its tunnel's URL, JWT and endpoint are given and not empty; they are the credentials, and which complaint it gets otherwise |
| RecoveryMachine.RunBeginsWithListen | internal/selfheal/recovery.go:286-292 | a run begins with a listen that uses these three, or returns at once without doing anything |
| RecoveryTraces.RecoverIsLegal | internal/selfheal/recovery.go:230-267 | a recovery starts one refresh and at most one re-registration, keeps the observer in agreement and listens to nothing |
| RecoveryTraces.ConnectIsLegal | internal/selfheal/recovery.go:293-303 | an accepted listen has a forwarder up, clears both flags, and has announced the tunnel once |
| RecoveryTraces.StepIsLegal | internal/selfheal/recovery.go:286-325 | one iteration from any agreeing state shows a legal trace and agrees again |
| RecoveryTraces.EveryTraceIsLegal | internal/selfheal/recovery.go:281-325 | every run shows a legal trace; no forwarder is up when it has returned, and the announcements are min(1, accepted listens) |
| RecoveryBounds.EventKeepsBudget | internal/selfheal/recovery.go:243-266 | every legal event keeps the budget invariant |
| RecoveryBounds.RunBudget | internal/selfheal/recovery.go:281-325 | with n accepted listens: at most 2n + 3 listens, 2n + 2 refreshes, n + 1 re-registrations |
| RecoveryBounds.WatchCounts | internal/selfheal/recovery.go:281-325 | the numbers that the bounds speak of are the numbers of these events in the log |
| RecoveryBounds.BudgetIsExact | internal/selfheal/recovery.go:281-325 | for every n and every usable registration some run reaches all three bounds |
| RecoveryBounds.RejectionCounts | internal/selfheal/recovery.go:305-324 | the exact work of an iteration that ends in a rejection |
| RecoveryBounds.RankDecreases | internal/selfheal/recovery.go:300-324 | an iteration that goes on without a connection lowers the phase: Fresh, ReRegistered, Rotated |
| RecoveryBounds.RoundsUsed | internal/selfheal/recovery.go:286-325 | a run still going has made at most two iterations per connection, plus the rank of its phase |
| RecoveryBounds.RunTerminates | internal/selfheal/recovery.go:286-325 | if the environment answers and connects at most n times, the run has returned, always with an error, within 2n + 3 iterations |
| RecoveryBounds.WaitErrorIsRejectionIff | internal/selfheal/recovery.go:212-226 | what a wait ends in is taken for a rejection if and only if the forwarder stopped with one under a live context |
| RecoveryBounds.LostConnectionGoesOnIfRejected | internal/selfheal/recovery.go:302-317 | a lost connection is worked on only in that case |
| RecoveryBounds.SilentRunConnectsOnce | vendor/github.com/andydunstall/piko/client/forwarder.go:49-57 | with a forwarder that reports no error, a run makes at most one accepted listen and three listens, and does not go on after the accepted one |
| RecoveryGuarantees.ReregistrationsAreSeparated | internal/selfheal/recovery.go:317-324 | between two re-registrations there is an accepted listen, although a refresh clears the flag |
| RecoveryGuarantees.ReregistrationIsJustified | internal/selfheal/recovery.go:250-261 | the event before a re-registration is a raw refresh attempt answered 401 under a live context |
| RecoveryGuarantees.ReregistersIff | internal/selfheal/recovery.go:243-266 | a recovery re-registers if and only if none was made in this outage and some attempt was such a 401 after retried ones only |
| RecoveryGuarantees.CredentialsAreLatest | internal/selfheal/recovery.go:287-292 | every listen has three non-empty credentials, from the initial registration, the JWT just refreshed, or the registration just made |
| RecoveryGuarantees.TunnelIsOfLatestRegistration | internal/selfheal/recovery.go:165-179 | URL and endpoint of every listen are those of the latest registration; no refresh touches them |
| RecoveryGuarantees.AttemptsSendRejectedJwt | internal/selfheal/recovery.go:243-243 | every raw refresh attempt sends the JWT of the latest listen |
| RecoveryGuarantees.ForwardersEnd | internal/selfheal/recovery.go:292-307 | each forwarder has ended before the next listen and before the run returns |
| RecoveryGuarantees.AnnouncedOnce | internal/selfheal/recovery.go:293-298 | the first connection is announced min(1, accepted listens) times |
| RecoveryGuarantees.AnnouncementIsOfFirstConnection | internal/selfheal/recovery.go:293-298 | the announcement directly follows the first accepted listen, with the URL of the registration in use |
| RecoveryGuarantees.RetryUncanceled | internal/selfheal/recovery.go:139-159 | a wrapped retry loop makes up no cancellation |
| RecoveryGuarantees.CancellationComesFromOutside | internal/selfheal/recovery.go:305-322 | if the recovery returns a cancellation, the context was seen canceled or a collaborator reported it |
| RecoveryGuarantees.WhatRunReturns | internal/selfheal/recovery.go:305-315 | which error a run returns when it gives up a connection: the context's own if it is seen ended, else the failure, under the prefix that says whether the JWT was fresh; no refresh is tried then |
| RecoveryGuarantees.WhatRecoveryReturns | internal/selfheal/recovery.go:243-266 | which error a recovery returns: that of the refresh, marked after a re-registration, or that of the re-registration |
| ForwarderWait.ReturnedForwarderIsDone | internal/selfheal/recovery.go:207-228 | on return the forwarder has either stopped or been closed, and the result is the stop's error or the context's |
| ForwarderWait.SendNeverBlocks | internal/selfheal/recovery.go:208-210 | the goroutine's send always finds room, even long after the caller has gone |
| ForwarderWait.NothingIsStuck | internal/selfheal/recovery.go:207-228 | the caller can move once the forwarder is down or the context has ended, and the goroutine never leaks on a stopped forwarder |
| ForwarderWait.SchedulesAreShort | internal/selfheal/recovery.go:207-228 | no schedule has more than six steps |
| ForwarderWait.RaceIsOpen | internal/selfheal/recovery.go:212-227 | when both happened, either branch can win |
| ForwarderWait.WaitReturnsInTheEnd | internal/selfheal/recovery.go:207-228 | a schedule that cannot go on has the caller returned and the goroutine finished |
| ForwarderWait.WaitIsPossibleIff | internal/selfheal/recovery.go:207-228 | the waits that the recovery reacts to are exactly those the race can end in |
| ForwarderWait.EndedEventIsTrue | internal/selfheal/recovery.go:212-227 | the end that the recovery logs for a wait is true of the forwarder: it has stopped or was closed, and closed exactly if the event says so |
| TaskGroup.SiblingIsNeverMasked | internal/cmd/wh/wh.go:278-312 | if the recovery was only canceled, the group's result is exactly Airlock's; otherwise it is an error of one of the two |
| TaskGroup.SucceedsIff | internal/cmd/wh/wh.go:303-314 | in every schedule: the result is success if and only if Airlock succeeded and the recovery was only canceled; then the caller canceled, and after a passed deadline it is always an error |
| TaskGroup.NothingIsStuck | vendor/golang.org/x/sync/errgroup/errgroup.go:48-102 | once both functions have returned, the group's bookkeeping always proceeds to Wait |
| TaskGroup.SchedulesAreShort | internal/cmd/wh/wh.go:278-314 | no schedule has more than eleven steps, so the group cannot go on without returning |
| TaskGroup.GroupReturns | internal/cmd/wh/wh.go:310-314 | a schedule that cannot go on has Wait returned |
| TaskGroup.FailureEndsContext | vendor/golang.org/x/sync/errgroup/errgroup.go:93-99 | in every schedule, a task that has failed and is done has ended the group's context |
| TaskGroup.FailureStopsRecovery | internal/cmd/wh/wh.go:278-312 | after Airlock failed, a recovery still running under a live caller sees its context canceled, and by returning that makes the group return Airlock's error |
| TaskGroup.FirstErrorWins | vendor/golang.org/x/sync/errgroup/errgroup.go:93-99 | the first error recorded stays the group's |
| TaskGroup.DeadlineIsReported | internal/cmd/wh/wh.go:303-307 | a schedule in which the passed deadline itself is the group's error, though Airlock succeeded |
| NamespaceLaunch.CommandStartsAfterHandshake | internal/ns/ns_linux.go:315-327 | the command runs only after slirp's ready byte was read, announced and heard, and SYNC was written |
| NamespaceLaunch.ClosedWithoutValue | internal/ns/ns_linux.go:318-322 | if ready closes without a value, SYNC is never written and LaunchNS returns launchNetwork's result |
| NamespaceLaunch.NothingIsStuck | internal/ns/ns_linux.go:136-189 | until LaunchNS has returned, a step is possible whenever the context is canceled, slirp is down or launchNetwork is outside its loop |
| NamespaceLaunch.SchedulesAreShort | internal/ns/ns_linux.go:315-337 | no schedule has more than twenty steps |
| NamespaceLaunch.LaunchReturns | internal/ns/ns_linux.go:275-338 | a schedule that cannot go on has LaunchNS returned, or the process crashed |
| NamespaceLaunch.ResultsAreTrue | internal/ns/ns_linux.go:175-188 | in every interleaving what LaunchNS and launchNetwork return by is so: a canceled context, a gone child, slirp down after it ran, a failed read, a failed SYNC; slirp is down when launchNetwork has returned |
| NamespaceLaunch.ChildIsReleased | internal/ns/ns_linux.go:195-199 | the child stops blocking: by SYNC if it was written, and by the closed pipe if LaunchNS ended without it |
| NamespaceLaunch.CrashFailsSafe | internal/ns/ns_linux.go:136-173 | after a send on the closed ready channel the command has not been and is not started |
| NamespaceLaunch.CrashesIff | internal/ns/ns_linux.go:136-173 | a schedule crashes if and only if a send on the ready channel comes after its closing |
| NamespaceLaunch.CrashIsReachable | internal/ns/ns_linux.go:136-173 | schedules that crash, by a context canceled later and by slirp's exit |
| NamespaceLaunch.CanceledNeverReads | internal/ns/ns_linux.go:148-157 | under a context canceled before slirp starts there is never a reader, nor a crash |
| NamespaceLaunch.CrashIsPossibleIff | internal/ns/ns_linux.go:148-187 | a launch can crash if and only if its context is not canceled before slirp starts, and may be canceled later or slirp may exit; a dying child or a failing read or write never leads to it |
| NamespaceExec.SidecarIsJoined | internal/ns/ns_linux.go:258-272 | when Exec has returned the sidecar has completed; in the context and command branches it was canceled before the join; the result is that of the branch, and on the command branch that of the process unless the context is over |
| NamespaceExec.DefaultSidecarMeansContextEnded | internal/ns/ns_linux.go:250-256 | without a sidecar, its branch fires only after the context has ended, and reports no error |
| NamespaceExec.NothingIsStuck | internal/ns/ns_linux.go:233-272 | no send blocks and Exec can move whenever something it waits for has happened |
| NamespaceExec.SchedulesAreShort | internal/ns/ns_linux.go:233-272 | no schedule has more than ten steps |
| NamespaceExec.ExecReturns | internal/ns/ns_linux.go:258-272 | a schedule that cannot go on has Exec returned |
| NamespaceExec.ProcessOutlivesCommandBranch | internal/ns/ns_linux.go:126-133 | a schedule in which Exec returns on the command branch without an error while the user command runs |
| NamespaceExec.CommandIsOverIff | internal/ns/ns_linux.go:258-272 | for each branch: when Exec has returned, the user command is certain not to run if and only if the context was over from the start, or does not end and the return is not on the branch of a given sidecar |
| TableLayout.FormatRow | internal/cmd/wh/format.go:213-227 | appends the specified line to the builder, for any row |
| TableLayout.MeasureColumns | internal/cmd/wh/format.go:190-201 | the array of widths holds the longest header or cell of each column in bytes |
| TableLayout.FormatTable | internal/cmd/wh/format.go:185-211 | produces the specified table, ragged rows included |
| TableReading.LinesHaveEqualLength | internal/cmd/wh/format.go:185-227 | all lines of a rectangular table have the same number of characters, non-ASCII cells included |
| TableReading.WidthIsAttained | internal/cmd/wh/format.go:190-201 | some header or cell of each column has exactly its width |
| TableReading.OffsetIsSum | internal/cmd/wh/format.go:213-224 | a column starts after the widths of those before it and two spaces for each |
| TableReading.EveryCellIsWritten | internal/cmd/wh/format.go:213-227 | in any row, ragged ones included, every cell is on the line, at least two characters after the one before it |
| TableReading.ColumnText | internal/cmd/wh/format.go:213-224 | column j of every line starts at the same offset and holds the cell followed by spaces only |
| TableReading.TableIsReadBack | internal/cmd/wh/format.go:185-227 | a reader who knows only the headers recovers every cell |
| TableReading.LayoutIsInjective | internal/cmd/wh/format.go:185-227 | different tables give different texts |
| TableReading.FormatEntitySetTable | internal/cmd/wh/format.go:133-165 | lays users and groups side by side, padding the shorter list |
| TableReading.EntitySetIsReadBack | internal/cmd/wh/format.go:133-165 | both lists can be read off the table |
| Filtering.FilterIsExact | internal/routeregistry/service.go:196-202 | the append loop keeps exactly the matching entries, in order |
| RouteResolution.ListRoutes | internal/routeregistry/service.go:186-209 | all routes for the empty identifier, else the matching ones in order or a not-found error |
| RouteResolution.ListCommunities | internal/routeregistry/service.go:79-102 | likewise for communities |
| RouteResolution.ResolvesIffUnique | internal/routeregistry/service.go:173-184 | a non-empty identifier resolves to an entry if and only if it is the only match, and the index is safe |
| RouteResolution.ListIs | internal/routeregistry/service.go:186-209 | the registry's failure is passed on; everything for the empty identifier; else the matching entries, or not found |
| RouteResolution.FailsIff | internal/routeregistry/service.go:173-181 | resolving fails with not found if and only if nothing matches, and with the count if and only if several do |
| RouteResolution.RouteMatchesIff | internal/routeregistry/types.go:107-121 | a route matches exactly its domain/name and, from eight bytes on, every beginning of its ID |
| RouteResolution.CommunityMatchesIff | internal/routeregistry/types.go:98-105 | a community matches exactly its name, however short, and, from eight bytes on, every beginning of its ID |
| RouteResolution.FullNameResolves | internal/routeregistry/service.go:171-184 | a route is found by its fully qualified name unless another matches it |
| RouteResolution.NameResolves | internal/routeregistry/service.go:65-77 | a community is found by its name unless another matches it |
| RouteResolution.PanicsIff | internal/routeregistry/service.go:173-194 | the index is unsafe exactly for the empty identifier and an empty registry |
| RouteResolution.LongerPrefixResolvesToSame | internal/routeregistry/types.go:107-121 | typing more of a route's ID never changes the route found |
| RouteResolution.LongerPrefixOfCommunity | internal/routeregistry/types.go:98-105 | for communities the same holds exactly when no other community is named like the longer prefix |
| RouteResolution.MembershipChangeIff | internal/cmd/wh/community.go:136-163 | a membership change is asked for exactly when both identifiers match one entry, with the IDs of those entries |
| RouteResolution.FindRoute | internal/cmd/wh/route.go:33-41 | the first matching route |
| RouteResolution.FirstMatchIff | internal/cmd/wh/route.go:33-41 | the route found matches and no earlier one does; none is found only if none matches |
| RouteResolution.ListSingleCommunity | internal/cmd/wh/community.go:38-57 | overwrites each route in place by its joined one; on an error of the registry nothing changes |
| RouteResolution.JoinIsById | internal/cmd/wh/community.go:47-56 | with distinct, equally long, slash-free IDs each route becomes the entry with its ID and others stay |
| RouteResolution.JoinIsByIdIff | internal/cmd/wh/community.go:47-56 | exactly when each route becomes the first entry with its ID, or stays if there is none: unless an entry of another ID continues the ID, or has it as full name, with no exact entry before it; then the route gets an entry with another ID. A route with an ID under eight bytes becomes the first entry with that full name, or stays |
| RouteResolution.ShortIdsAreNotJoined | internal/routeregistry/types.go:107-111 | IDs under eight bytes are never joined |
| RouteResolution.UnevenIdsAreJoinedWrongly | internal/cmd/wh/community.go:47-56 | concrete wrong joins, with and without an exact entry |
| AccessRules.FieldsSplitAtComma | internal/cmd/wh/wh.go:168-177 | splitting a list at any comma and splitting the halves gives the same names |
| AccessRules.OneField | internal/cmd/wh/wh.go:168-177 | a text without commas is one name, or none if empty |
| AccessRules.FieldsUndoJoin | internal/cmd/wh/wh.go:168-177 | splitting undoes joining for every list of non-empty comma-free names |
| AccessRules.NormalFormIsStable | internal/cmd/wh/wh.go:168-177 | rejoining and splitting again changes nothing, for any text |
| AccessRules.Intersect | internal/cmd/wh/wh.go:66-76 | the loop keeps the allowed values that are forbidden |
| AccessRules.IntersectionIsOrdered | internal/cmd/wh/wh.go:66-76 | with the order and the multiplicity of the allowed list; empty exactly for disjoint lists |
| AccessRules.ParseAccessRules | internal/cmd/wh/wh.go:167-192 | succeeds exactly when somebody is allowed and nobody is both allowed and forbidden; names the offenders otherwise |
| LayeredConfig.Reverse | internal/cmd/bootstrap/bootstrap.go:65-70 | reverses in place |
| LayeredConfig.LoadConfigs | internal/cmd/bootstrap/bootstrap.go:56-63 | loads the given files in order, or reports the first that is unusable |
| LayeredConfig.Run | internal/cmd/bootstrap/bootstrap.go:42-72 | succeeds exactly when every wanted file is usable, with the layers reversed, over which every flag has its meant value; else reports the first unusable one; a missing system file is no error |
| LayeredConfig.FlagSources | internal/cmd/wh/args/sources.go:18-28 | the chain is the environment variable, then one lookup per file |
| LayeredConfig.EnvNameAt | internal/cmd/wh/args/sources.go:19-21 | the variable's name: the prefix WORMHOLE_, letters in upper case, digits, and an underscore for each hyphen |
| LayeredConfig.EnvNamesAreDistinct | internal/cmd/wh/args/sources.go:19-21 | no two flags share an environment variable |
| LayeredConfig.LookupReadsDefaults | vendor/github.com/urfave/cli/v3/value_source.go:195-229 | the dotted lookup of a dot-free flag reads the file's defaults table |
| LayeredConfig.FirstHitIsLastWins | vendor/github.com/urfave/cli/v3/value_source.go:94-102 | first hit over the reversed layers is lookup in the merge where later layers win |
| LayeredConfig.ChainIsLayeredMerge | internal/cmd/wh/args/sources.go:12-28 | a flag's chain answers as the merge of the system file, the user files in order, then the environment |
| LayeredConfig.LastSaidIff | internal/cmd/bootstrap/bootstrap.go:56-70 | the file that counts among those given on the command line is the last that sets the flag |
| LayeredConfig.ChainIsFlagValue | internal/cmd/bootstrap/bootstrap.go:42-72 | over the sources of a run, a flag has the environment's value, else that of the last given file that sets it, else the system file's unless that is not wanted |

## Left out

- HTTP requests, JSON decoding and URL joining: every registry operation is an answer or a classified error.
- Piko and Airlock internals, logging, printing, command trees and flag tables.
- Piko's own forwarder beyond its silence: elsewhere any result of `Wait` is allowed.
- Backoff.NextRetryDelay: does not model float64 rounding of the product, nor NaN jitter.
- Errors of `launchAirlock` itself, before the group has its second task.
- The wait of `listen` itself: it answers with a forwarder or an error.
- Mounts, signals, `terminateChild`, kill timeouts and reaping of child processes; the child of a namespaced launch may die at any moment.
- The unsynchronised write to the captured `err` at internal/ns/ns_linux.go:165.
- SYNC messages of other contents: the pipe delivers SYNC whole or is closed without it.
- TableReading.TableIsReadBack: claims nothing for cells that end in a space or hold a line break, nor for headers that are empty or begin with a space, since none of these can be told from the layout.
- TableLayout.FormatTable: does not model strings that are not valid UTF-8.
- `truncateID` and the other table builders, which only choose columns.
- A nil entity set, which formats as the empty text.
- RouteResolution.JoinIsById: requires uniform IDs; `RouteResolution.JoinIsByIdIff` covers the others.
- RouteResolution.LongerPrefixResolvesToSame: covers no ID with a slash, a prefix of which can be another route's full name.
- LayeredConfig.EnvNamesAreDistinct: is about flag names of lower-case letters, digits and hyphens, as all flags have.
- How a found configuration value is rendered as text and parsed by its flag.
