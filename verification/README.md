# Verified models of the PangeaVPN client

Dafny models of the parts of the client that share state between threads or outlive the call that
began them, with their properties proved over every run, and of five small algorithms with a hard
specification. `dafny verify dfyconfig.toml` checks all of it.

**Go tunnel** (`TunnelState.dfy`, `TunnelRuns.dfy`). `TunnelState` has the globals under `mu` as a class,
one method a critical section, each proved equal to a function on values. `TunnelRuns` interleaves any
number of starts, stops, prepares and session ends, a program counter each, over those functions: how long
key material lives, who owns a runtime, and what a start cancelled by a stop may still do.

**Hub route** (`HubRoute.dfy`, `HubRuns.dfy`). The route in use with its failure bookkeeping, the search
under its lock, requests on routes old and new, and settings that change under all of them. A thread that
changed the settings invalidates some time later; the network answers anything.

**Sessions** (`Sessions.dfy`, `SessionRuns.dfy`). Sign-in, sign-out, deletion, wipe, reload and the late
answers of calls begun before them. A gated operation takes the gate, runs its `mu` section and makes each
store write in steps of its own; what takes `mu` alone comes in between.

**iOS lifecycle** (`Lifecycle.dfy`, `LifecycleRuns.dfy`, `LifecycleProgress.dfy`, `LifecycleLaws.dfy`,
`TunnelLifecycle.dfy`, `Reconnect.dfy`, `Alerts.dfy`). The queue events of TunnelLifecycle as functions and as a class that refines them; timers that
fire at any time while live, settings applies answered late, twice or never, each with its watchdog. The
invariant gives the theorems on recovery, start completion, stale answers and what the host is told;
`LifecycleProgress` shows that starts end and that a recovery's failures go round all its servers;
`LifecycleLaws` says, for each event in any reachable state, what it comes to in plain terms.
`Alerts` runs the alert policy against a notification centre.

**Algorithms**. `Redact.dfy`: the look-around scanner against maximal runs. `Diagnostics.dfy`: the report's
size budget. `Regions.dfy`: the failover order. `Ranges.dfy`: the CIDR parser and printer (section 3.1 of
RFC 4632). `DnsProbe.dfy`: when unanswered probes rebuild a tunnel.

## Where the code and its own words differ

- The rebuild cooldown of the DNS probe is also lifted by a resume (`daemon/internal/api/service.go:2428-2430`)
  and by noting a dead transport (`daemon/internal/api/service.go:2684-2685`), so verdicts can be closer than
  five minutes without a deferral or a session end; `VerdictExactlyWhenDue` is the rule as it is.
- `storeForSession` says it writes only while the scope's session is the signed-in one; a login that begins
  between its check and its write makes that false, and nothing else does (`LateWriteSurvivesANewLogin`,
  `WriteIsForTheSessionSignedIn`).
- `Reload` says the license and identity it reads are one pair a login stored; a login that rotates its
  identity stores it before its license, and a deregistration forgets it before
  (`ReloadReadsAnUnpairedLicense`); nothing else unpairs them (`OnlyAMovedIdentityUnpairs`,
  `PairLastsUntilUnpaired`).
- A wipe is said to end a request rather than let it search again under the defaults; one that runs between
  a request's check and its search does not (`WipedRequestMaySearch`); no other wipe is missed
  (`OnlyAWipeOvertakes`, `WipedRequestEndsAtItsCheck`).
- A blocked alert left on the screen by an earlier process can stand beside a lost one
  (`NeverLostAndBlocked`).
- Three halvings are said to fit the report's limit; two always do (`BuildDiagnosticsBody`).

## Model

| member | source | states |
|---|---|---|
| `TunnelRuns.KeyLifetime` | daemon/mobile/starting.go:36-71 | over every interleaving `starts` is the number of unfinished starts of a config, its keys are the registered ones while a start or `prepared` needs them, and zero when neither does |
| `TunnelRuns.CascadeReadsIntactKeys` | daemon/mobile/tunnel.go:209-220 | a cascade still running configures its peer with the keys its config was registered with, whatever sign-out, prepare or wipe came in between |
| `TunnelRuns.OldAndNewCascadesOverlap` | daemon/mobile/starting.go:73-83 | a stop that gave up its wait can leave an old cascade running beside a new one on the same keys |
| `TunnelRuns.RuntimesAreConserved` | daemon/mobile/tunnel.go:262-283 | a published runtime is active or was handed to exactly one stop, never both, and is closed at most once, by that stop |
| `TunnelRuns.PublishingNeverOverwrites` | daemon/mobile/tunnel.go:177-189 | a start that goes live finds no running tunnel |
| `TunnelRuns.StopSilencesEarlierStarts` | daemon/mobile/tunnel.go:262-345 | after a stop has detached, no start claimed before it is ever the active tunnel or writes a status again |
| `TunnelRuns.ConnectedIsTrue` | daemon/mobile/tunnel.go:191-196 | a stored `connected` names the config of the active tunnel, or of one a stop has taken and is about to announce as going down |
| `TunnelRuns.StopLeavesNothing` | daemon/mobile/tunnel.go:285-322 | a stop that ends without timing out leaves its cancelled start gone and its tunnel closed |
| `TunnelRuns.NextKeeps` | daemon/mobile/starting.go:32-71 | the invariant behind these is kept by every step of every thread |
| `TunnelState.WalkCascade` | daemon/mobile/tunnel.go:138-174 | goes live over the first transport that carries a handshake unless a stop came first, fails only after every one did, and is told cancelled only when it was |
| `TunnelState.Mobile.constructor` | daemon/mobile/mobile.go:60-84 | the globals before the first call |
| `TunnelState.Mobile.Claim` | daemon/mobile/starting.go:36-50 | refuses without a prepared config or beside a tunnel or another start; else registers the attempt and counts it on the config's keys |
| `TunnelState.Mobile.Finish` | daemon/mobile/starting.go:54-63 | gives up the starting slot and the count, and scrubs keys that nothing needs any more |
| `TunnelState.Mobile.ReleaseAttempt` | daemon/mobile/starting.go:64-70 | cancels a context no runtime owns, then closes `done` |
| `TunnelState.Mobile.Publish` | daemon/mobile/tunnel.go:177-189 | refuses a cancelled attempt, else makes it the active tunnel |
| `TunnelState.Mobile.PushStatus` | daemon/mobile/tunnel.go:325-331 | stores the status |
| `TunnelState.Mobile.PushAttempt` | daemon/mobile/tunnel.go:335-345 | stores the status unless the attempt is cancelled |
| `TunnelState.Mobile.Detach` | daemon/mobile/tunnel.go:262-271 | empties both slots, cancels the start it took and hands both to the caller |
| `TunnelState.Mobile.SetPreparedLocked` | daemon/mobile/lifecycle.go:85-91 | replaces the config, scrubbing the one dropped unless a start still reads it |
| `TunnelState.Mobile.Scrub` | daemon/mobile/lifecycle.go:78-81 | zeroes both keys, length kept, and nothing else |
| `TunnelState.Mobile.StashPrepared` | daemon/mobile/lifecycle.go:64-72 | publishes the config for the session and identity that asked for it, else scrubs it |
| `TunnelState.Mobile.DropSession` | daemon/mobile/account.go:45-47 | drops the prepared config and moves the session epoch |
| `TunnelState.Mobile.WipeMemory` | daemon/mobile/account.go:173-179 | that, and forgets the identity and the stored status |
| `TunnelState.Clear` | daemon/mobile/lifecycle.go:78-81 | a slice is overwritten with as many zero bytes |
| `TunnelRuns.ClaimSucceedsExactlyWhen` | daemon/mobile/starting.go:36-50 | a claim succeeds exactly with a config prepared, no tunnel up and no start in its cascade but ones a stop has cancelled |
| `TunnelRuns.UnstoppedStartGoesLive` | daemon/mobile/tunnel.go:177-197 | a claimed start that no stop meets becomes the active tunnel as soon as its transport carries traffic, and its reports are stored |
| `TunnelRuns.StoppedStartNeverGoesLive` | daemon/mobile/tunnel.go:262-271 | a stop takes the start in its cascade, and one taken so never goes live |
| `TunnelRuns.StartsReport` | daemon/mobile/tunnel.go:138-197 | what a start may report in which of its states, of its own config only |
| `TunnelRuns.AStartConnects` | daemon/mobile/tunnel.go:70-197 | a run from the start to a stored `connected` |
| `TunnelRuns.SessionEndDropsTheConfig` | daemon/mobile/account.go:165-179 | a session's end moves the epoch by one and leaves no config prepared, a wipe also no identity and no status; nothing else moves it |
| `TunnelRuns.PrepareLandsExactlyWhen` | daemon/mobile/lifecycle.go:64-72 | a prepare's config is prepared with intact keys if and only if no session ended since it began and the device is the same; else its keys are zeroed |
| `TunnelRuns.StopsSayWhatTheyDo` | daemon/mobile/tunnel.go:285-322 | a switch says `connecting` and nothing else; another stop that took something says that the tunnel is down |
| `TunnelRuns.StopNamesItsServer` | daemon/mobile/tunnel.go:301-322 | a switch names the server it goes to, or what it took, a plain stop the tunnel it took |
| `TunnelRuns.ActiveTunnelIsAlive` | daemon/mobile/starting.go:64-70 | the active tunnel's context is not cancelled |
| `HubRuns.RouteRespectsTheSwitches` | daemon/mobile/hubpath.go:197-257 | with no invalidation outstanding the route in use is of a method the current settings enable, so the cleartext method only while it is switched on |
| `HubRuns.OldSearchNeverPublishes` | daemon/mobile/hubpath.go:216-235 | a route is published only by a search that began after the last change of plan |
| `HubRuns.PathsAreConserved` | daemon/mobile/hubpath.go:219-238 | every path a search returned is in use, in the searcher's hand, about to be closed or closed, exactly one of them and once |
| `HubRuns.LandingFindsNoRoute` | daemon/mobile/hubpath.go:233-235 | publishing never overwrites a route |
| `HubRuns.DroppedAfterTwoFailures` | daemon/mobile/hubpath.go:414-423 | a route is dropped for failures only by its second failed request with no success, publication or change of plan between |
| `HubRuns.NoSearchInCooldown` | daemon/mobile/hubstate.go:34-44 | no search begins within 20 seconds of one that found nothing, unless a success or a change of plan came between |
| `HubRuns.NextKeeps` | daemon/mobile/hubpath.go:197-429 | the invariant behind these is kept by every step |
| `HubRoute.ChangedDefaultsApplyOnce` | daemon/mobile/hubmethods.go:30-36 | a blob stored before a default changed gets the new default, its other switches untouched |
| `HubRuns.OnlyAWipeOvertakes` | daemon/mobile/hubpath.go:203-217 | a request past its wipe check, for as long as it searches, belongs to a session before a wipe if and only if a wipe ran since that check |
| `HubRuns.WipedRequestEndsAtItsCheck` | daemon/mobile/hubpath.go:203-206 | a request that comes to its check after a wipe never gets past it and ends there |
| `HubRuns.WipedRequestMaySearch` | daemon/mobile/hubpath.go:201-217 | a run in which a request so overtaken searches under the default settings and publishes the route it finds |
| `HubRoute.NormalizeKeepsSwitches` | daemon/mobile/hubmethods.go:122-140 | normalizing leaves a method on, is idempotent, keeps the switches of a blob of this revision, and never switches the cleartext method on |
| `HubRoute.FirstAnswerIsUnique` | daemon/mobile/hubstate.go:80-88 | being the first answer determines it |
| `HubRoute.FirstWorkingMethod` | daemon/mobile/hubstate.go:80-88 | answers what the first method that works answers, or that none does |
| `HubRoute.SearchHubMethods` | daemon/mobile/hubstate.go:69-78 | spends the reseed exactly when every method failed, and walks again exactly when the reseed changed something |
| `HubRoute.HubClient.constructor` | daemon/mobile/hub.go:34-41 | no route and an empty tracker |
| `HubRoute.HubClient.Wait` | daemon/mobile/hubstate.go:34-42 | what is left of the cooldown |
| `HubRoute.HubClient.SearchFailed` | daemon/mobile/hubstate.go:44 | stamps the failure |
| `HubRoute.HubClient.RequestSucceeded` | daemon/mobile/hubpath.go:425-429 | clears the streak and the failure |
| `HubRoute.HubClient.TrackFailure` | daemon/mobile/hubstate.go:52-59 | asks for a drop at the second failure in a row, counting from zero after it |
| `HubRoute.HubClient.RequestFailed` | daemon/mobile/hubpath.go:414-423 | counts only against the route still in use, and drops it when told to |
| `HubRoute.HubClient.Invalidate` | daemon/mobile/hubpath.go:401-410 | drops the route, moves the generation, lifts streak and cooldown, and hands the route to the caller to close |
| `HubRoute.HubClient.Land` | daemon/mobile/hubpath.go:219-236 | discards an answer of an older generation, stamps a failure, or publishes |
| `HubRuns.SearchBeginsExactlyWhen` | daemon/mobile/hubpath.go:203-216 | a search begins exactly with no route in use and the last search in vain, not forgiven since, 20 seconds ago or more; else the request has its answer at once |
| `HubRuns.LandedAnswerIsTheRoute` | daemon/mobile/hubpath.go:219-236 | an answer lands as the route in use, or as a search in vain, exactly when no change of plan was noted since its search began; else its path is to be closed |
| `HubRuns.FailureDropsExactlyWhen` | daemon/mobile/hubpath.go:414-423 | a failed request drops the route in use exactly when an earlier one failed on it with nothing forgiving between; on another route it is nothing |
| `HubRuns.RequestSearchesExactlyTwice` | daemon/mobile/hubpath.go:203-239 | a request gets past its check for a first or a second search and no third, exactly while no wipe has run since the session it came with |
| `HubRuns.EveryChangeIsFollowed` | daemon/mobile/hubpath.go:399-410 | every change of plan asked for is noted by one invalidation, or that is still to run |
| `HubRuns.RequestsGoOverTheRoute` | daemon/mobile/hubpath.go:412-429 | a request goes over the route in use when it is sent, and is answered once |
| `SessionRuns.MemoryBelongsToTheSession` | daemon/mobile/login.go:71-101 | servers and a prepared config in memory were fetched under the session epoch and license in force |
| `SessionRuns.EpochNamesTheLicense` | daemon/mobile/epoch.go:16-36 | a captured scope whose session epoch still stands carries the license signed in now |
| `SessionRuns.NothingWipedComesBack` | daemon/mobile/account.go:165-186 | after a wipe's gated step every checked key holds only what a call that captured its scope later wrote, or is about to be cleared |
| `SessionRuns.NothingLoggedOutComesBack` | daemon/mobile/mobile.go:310-326 | the same of license, subscription and servers after a logout, or a sign-out or deletion that finds its own license stored |
| `SessionRuns.WriteIsForTheSessionSignedIn` | daemon/mobile/epoch.go:66-75 | a storeForSession past its check still has its write to do, and it is for the session signed in if and only if no login began since the check |
| `SessionRuns.OnlyALoginMovesTheSession` | daemon/mobile/epoch.go:66-75 | while a thread holds the gate with writes to do, the session epoch moves by exactly the logins that begin |
| `SessionRuns.PairLastsUntilUnpaired` | daemon/mobile/refresh.go:66-81 | from a stored pair of license and identity, a run with no operation that moves or forgets the identity alone has a pair in the store whenever a reload reads it |
| `SessionRuns.ReloadReadsOnePair` | daemon/mobile/refresh.go:66-81 | over every run without such an operation a reload finds the license beside the identity stored with it |
| `SessionRuns.CommitPairs` | daemon/mobile/login.go:85-101 | a commit for a standing session pairs whatever was stored before |
| `SessionRuns.LateWriteSurvivesANewLogin` | daemon/mobile/login.go:71-81 | a run in which such a write lands after a login on the same device began a new session, since beginSession takes no gate |
| `SessionRuns.NextKeeps` | daemon/mobile/epoch.go:53-95 | the invariant behind these is kept by every step |
| `Sessions.OnlyAMovedIdentityUnpairs` | daemon/mobile/login.go:83-101 | a gated operation leaves license and identity stored as a pair, except exactly when it stores or forgets an identity beside a license stored earlier |
| `Sessions.ReloadReadsAnUnpairedLicense` | daemon/mobile/refresh.go:66-81 | between the rotation of an identity and the commit of a login, a reload signs the previous account in under the new identity |
| `Sessions.Session.constructor` | daemon/mobile/mobile.go:90-112 | Init's share: the stored license and identity in memory |
| `Sessions.Session.SetStoredSince` | daemon/mobile/epoch.go:53-62 | writes while no wipe has run since |
| `Sessions.Session.SetForSession` | daemon/mobile/epoch.go:66-75 | writes while the session stands |
| `Sessions.Session.SetIdentityFor` | daemon/mobile/epoch.go:79-95 | installs the identity in memory and store while the session stands |
| `Sessions.Session.CommitSession` | daemon/mobile/login.go:85-101 | stores identity and license of a session that stands |
| `Sessions.Session.ForgetIdentityIf` | daemon/mobile/identity.go:72-94 | drops that identity from memory and store while the session stands |
| `Sessions.Session.LogOut` | daemon/mobile/mobile.go:310-326 | ends the session and clears its keys |
| `Sessions.Session.SignOutLocally` | daemon/mobile/account.go:35-57 | ends the scope's session, and clears the store only if it still holds its license |
| `Sessions.Session.EndDeletedAccount` | daemon/mobile/account.go:117-151 | the same with the identity of the deleted account |
| `Sessions.Session.WipeAll` | daemon/mobile/account.go:165-186 | ends the session, moves the wipe epoch and clears every key |
| `Sessions.Session.ReloadAll` | daemon/mobile/refresh.go:69-90 | takes what is stored; a changed session ends the one in memory |
| `Sessions.Session.Begin` | daemon/mobile/login.go:71-81 | opens a new session unless the session moved on |
| `Sessions.Session.LoadServers` | daemon/mobile/mobile.go:298-306 | installs the list unless the session moved on |
| `Sessions.Session.ClearKeys` | daemon/mobile/account.go:182-185 | clears exactly those keys |
| `SessionRuns.ReloadFollowsTheStore` | daemon/mobile/refresh.go:69-90 | a reload that finds another license or another identity stored drops the config and the servers, and no call begun before has the new session; else memory is unchanged but for a server list without a license |
| `SessionRuns.SessionEndsExactlyWhen` | daemon/mobile/account.go:35-57 | exactly a login begun, a standing sign-out or deletion, a logout, a wipe and such a reload end the session: the epoch moves by one, config and servers are dropped |
| `SessionRuns.SignedInAfter` | daemon/mobile/login.go:71-81 | who is signed in, on which device, after each event |
| `SessionRuns.AnswerLandsExactlyWhen` | daemon/mobile/mobile.go:298-306 | a late answer lands in memory if and only if its session has not ended since the call captured it, a config only on its own device |
| `SessionRuns.MemoryStaysWithTheSession` | daemon/mobile/login.go:85-101 | servers and config stay in memory until the session ends or another takes their place |
| `SessionRuns.WritesAreMade` | daemon/mobile/epoch.go:53-95 | what an operation settles at its `mu` section is what the store holds when it leaves the gate, and nothing else writes |
| `SessionRuns.OperationsRunThrough` | daemon/mobile/epoch.go:14-18 | whoever has the gate gets through with its writes made, and a wipe, logout or reload may take it any time it is free |
| `Sessions.WipeAndLogoutClear` | daemon/mobile/account.go:165-186 | a wipe leaves nothing stored, a logout all but license, subscription and servers, a reload everything |
| `Sessions.EndedSessionClearsItsOwn` | daemon/mobile/account.go:35-57 | a sign-out or deletion clears the keys of its own standing session and touches no other's |
| `Sessions.CheckedWritesLand` | daemon/mobile/epoch.go:53-75 | a checked write lands exactly while its epoch stands, on its own key alone |
| `Sessions.SessionWritesLand` | daemon/mobile/login.go:85-101 | a login's identity and license are stored exactly while its session stands, and only the named identity is forgotten |
| `LifecycleRuns.RunsKeepInv` | apps/ios/Shared/TunnelLifecycle.swift:8-51 | the invariant of the lifecycle, kept by every queue event, timer and callback of every run |
| `LifecycleRuns.RecoveryIsNeverStuck` | apps/ios/Shared/TunnelLifecycle+Reconnect.swift:20-114 | while reconnecting there is exactly one live attempt timer for the current cycle, or exactly one unanswered apply of it with its watchdog armed, never both |
| `LifecycleRuns.ArmedAttemptActs` | apps/ios/Shared/TunnelLifecycle+Reconnect.swift:74-89 | the attempt timer's firing waits when the network is down, and else stops the core and asks it to prepare or start, unless the session is refused |
| `LifecycleRuns.AwaitedAnswerMovesOn` | apps/ios/Shared/TunnelLifecycle+Establish.swift:121-133 | in a recovery the awaited answer, or its watchdog, ends the wait: up, waiting for a network, or the next attempt armed |
| `LifecycleRuns.WaitingAlwaysEnds` | apps/ios/Shared/ReconnectPolicy.swift:71-86 | in waiting the policy waits too, and the next usable path with a name begins a recovery |
| `LifecycleRuns.EveryStartCompletesOnce` | apps/ios/Shared/TunnelLifecycle.swift:70-142 | every start issued has completed exactly once, but for the one still pending |
| `LifecycleRuns.PendingStartIsOnItsWay` | apps/ios/Shared/TunnelLifecycle.swift:117-142 | a start is pending exactly in the starting phase, for the current cycle, with exactly one unanswered apply that the phase waits for, its watchdog armed; a superseding switch keeps this |
| `LifecycleProgress.StartAnswerMovesOn` | apps/ios/Shared/TunnelLifecycle.swift:110-238 | the answer a pending start waits for completes it, or brings the same start, in the same cycle, to a candidate strictly further on |
| `LifecycleProgress.StartCompletesAfterItsAnswers` | apps/ios/Shared/TunnelLifecycle.swift:110-238 | a start completes after at most one answer for its blocking routes and one a candidate, and until then such an answer is to come |
| `LifecycleProgress.EventNext` | apps/ios/Shared/TunnelLifecycle+Reconnect.swift:42-114 | any event within a cycle of a recovery leaves the attempt as it is, or fails it and arms the next on the server a failure moves to |
| `LifecycleProgress.FailuresGoRound` | apps/ios/Shared/TunnelLifecycle+Reconnect.swift:41-67 | over any run within a cycle the targets of the failed attempts are those of the rotation, each having been prepared unless the session was refused |
| `LifecycleProgress.RecoveryAsksEveryCandidate` | apps/ios/Shared/TunnelLifecycle+Reconnect.swift:41-67 | by the time 3n attempts of a cycle have failed from the one armed, the core was asked to prepare every one of n candidates, unless the session was refused |
| `LifecycleRuns.CoreRunsInContext` | apps/ios/Shared/TunnelLifecycle+Establish.swift:45-133 | every prepare and start of the core is made while starting or reconnecting, in the cycle its attempt began under |
| `LifecycleRuns.StoppedUntilStarted` | apps/ios/Shared/TunnelLifecycle.swift:84-96 | between a stop and the next start nothing happens to core or host but another stop, whatever timers and answers are outstanding |
| `LifecycleRuns.StaleAnswerIsInert` | apps/ios/Shared/TunnelLifecycle+Establish.swift:121-133 | an answer nobody waits for moves no phase, cycle or timer, starts and completes nothing |
| `LifecycleRuns.CallbackKeeps` | apps/ios/Shared/TunnelSettingsBuilder.swift:135-168 | an answer keeps the invariant, and an apply answered already ignores every further answer |
| `LifecycleRuns.WatchdogIsATimeout` | apps/ios/Shared/TunnelSettingsBuilder.swift:136-148 | the watchdog's firing is the system answering with a timeout |
| `LifecycleRuns.ConnectedOncePerSession` | apps/ios/Shared/TunnelLifecycle.swift:154-163 | a session tells `connected` at most once |
| `LifecycleRuns.RestoredEndsAnOutage` | apps/ios/Shared/TunnelLifecycle.swift:154-163 | `restored` follows trouble told since the last up event, with an up event before it |
| `LifecycleRuns.ReconnectingOncePerOutage` | apps/ios/Shared/TunnelLifecycle.swift:165-177 | `reconnecting` is told at most once an outage |
| `LifecycleObject.TunnelLifecycle.constructor` | apps/ios/Shared/TunnelLifecycle.swift:53-68 | a fresh lifecycle, in the invariant of the runs |
| `LifecycleObject.TunnelLifecycle.CancelWakeTimers` | apps/ios/Shared/TunnelLifecycle.swift:193-203 | stops every wake timer, the loop of cancelTimers |
| `LifecycleObject.TunnelLifecycle.CancelTimers` | apps/ios/Shared/TunnelLifecycle.swift:193-203 | stops every timer but the watchdogs |
| `LifecycleObject.TunnelLifecycle.ScheduleAttempt` | apps/ios/Shared/TunnelLifecycle+Reconnect.swift:69-72 | arms the one attempt timer for the current cycle |
| `LifecycleObject.TunnelLifecycle.AbandonPendingStart` | apps/ios/Shared/TunnelLifecycle.swift:273-278 | completes a pending start as superseded |
| `LifecycleObject.TunnelLifecycle.ResetSession` | apps/ios/Shared/TunnelLifecycle.swift:252-271 | begins a session: everything of the last one is forgotten |
| `LifecycleObject.TunnelLifecycle.Begin` | apps/ios/Shared/TunnelLifecycle.swift:70-82 | a start: the last pending one is superseded and the first settings apply made |
| `LifecycleObject.TunnelLifecycle.Stop` | apps/ios/Shared/TunnelLifecycle.swift:84-96 | a stop, after which nothing of this session is awaited |
| `LifecycleObject.TunnelLifecycle.ApplySettings` | apps/ios/Shared/TunnelLifecycle+Establish.swift:93-112 | loads one apply with its watchdog |
| `LifecycleObject.TunnelLifecycle.ApplyBlocking` | apps/ios/Shared/TunnelLifecycle+Establish.swift:19-28 | loads the blocking apply of this session |
| `LifecycleObject.TunnelLifecycle.SettingsAnswered` | apps/ios/Shared/TunnelLifecycle+Establish.swift:93-118 | records what was applied, passes a timeout through and goes on |
| `LifecycleObject.TunnelLifecycle.Callback` | apps/ios/Shared/TunnelSettingsBuilder.swift:136-148 | the first answer cancels the watchdog and goes on; later ones do nothing |
| `LifecycleObject.TunnelLifecycle.WatchdogFired` | apps/ios/Shared/TunnelSettingsBuilder.swift:142-143 | answers an apply still unanswered with a timeout |
| `LifecycleObject.TunnelLifecycle.BlockingApplied` | apps/ios/Shared/TunnelLifecycle.swift:110-115 | goes on to the start sequence in the same session only |
| `LifecycleObject.TunnelLifecycle.RunStartSequence` | apps/ios/Shared/TunnelLifecycle.swift:117-125 | ensures a session, then tries the first candidate |
| `LifecycleObject.TunnelLifecycle.EnsureSession` | apps/ios/Shared/TunnelLifecycle+Establish.swift:30-43 | restores a session once, falling back to listed servers |
| `LifecycleObject.TunnelLifecycle.TryCandidate` | apps/ios/Shared/TunnelLifecycle.swift:212-217 | establishes the candidate at an index |
| `LifecycleObject.TunnelLifecycle.CandidateFinished` | apps/ios/Shared/TunnelLifecycle.swift:219-238 | the next candidate after a failure worth it, else the end of the start |
| `LifecycleObject.TunnelLifecycle.FinishStart` | apps/ios/Shared/TunnelLifecycle.swift:127-142 | completes the pending start of the current cycle, once |
| `LifecycleObject.TunnelLifecycle.FailStart` | apps/ios/Shared/TunnelLifecycle.swift:240-250 | a failure is told to the host and, unless the session continues blocked, to the caller |
| `LifecycleObject.TunnelLifecycle.Establish` | apps/ios/Shared/TunnelLifecycle+Establish.swift:45-63 | prepares the route and applies its settings, or tells why not |
| `LifecycleObject.TunnelLifecycle.PrepareRoute` | apps/ios/Shared/TunnelLifecycle+Establish.swift:65-82 | one call of the core's prepare for the current target |
| `LifecycleObject.TunnelLifecycle.StartCore` | apps/ios/Shared/TunnelLifecycle+Establish.swift:121-133 | starts the core only in the cycle its apply was made under |
| `LifecycleObject.TunnelLifecycle.CameUp` | apps/ios/Shared/TunnelLifecycle.swift:145-152 | running, targets rebuilt, liveness armed |
| `LifecycleObject.TunnelLifecycle.AnnounceUp` | apps/ios/Shared/TunnelLifecycle.swift:154-163 | `connected` the first time of a session, `restored` after trouble |
| `LifecycleObject.TunnelLifecycle.AnnounceTrouble` | apps/ios/Shared/TunnelLifecycle.swift:165-177 | `reconnecting` once an outage, `blocked` when told so |
| `LifecycleObject.TunnelLifecycle.Handle` | apps/ios/Shared/TunnelLifecycle+Reconnect.swift:5-18 | what a path change asks for |
| `LifecycleObject.TunnelLifecycle.BeginRecovery` | apps/ios/Shared/TunnelLifecycle+Reconnect.swift:20-27 | a new cycle with its first attempt armed |
| `LifecycleObject.TunnelLifecycle.EnterWaiting` | apps/ios/Shared/TunnelLifecycle+Reconnect.swift:29-40 | waiting, with policy and timers to match |
| `LifecycleObject.TunnelLifecycle.Retry` | apps/ios/Shared/TunnelLifecycle+Reconnect.swift:42-54 | rotates, and waits or arms the next attempt |
| `LifecycleObject.TunnelLifecycle.RecheckFired` | apps/ios/Shared/TunnelLifecycle+Reconnect.swift:56-60 | begins a recovery if the path is still there |
| `LifecycleObject.TunnelLifecycle.RunAttempt` | apps/ios/Shared/TunnelLifecycle+Reconnect.swift:74-89 | one attempt, only in its own cycle and with the network up |
| `LifecycleObject.TunnelLifecycle.RestartInPlace` | apps/ios/Shared/TunnelLifecycle+Reconnect.swift:91-105 | the core restarted without settings, while those applied still fit |
| `LifecycleObject.TunnelLifecycle.AttemptFinished` | apps/ios/Shared/TunnelLifecycle+Reconnect.swift:107-114 | up, or on to the retry, only in its own cycle |
| `LifecycleObject.TunnelLifecycle.Retarget` | apps/ios/Shared/TunnelLifecycle+Switch.swift:18-23 | the switch's target leads the candidates |
| `LifecycleObject.TunnelLifecycle.SwitchServer` | apps/ios/Shared/TunnelLifecycle+Switch.swift:6-16 | what a switch does in each phase |
| `LifecycleObject.TunnelLifecycle.SupersedeStart` | apps/ios/Shared/TunnelLifecycle+Switch.swift:25-34 | a switch during a start keeps its completion and starts over under a new cycle |
| `LifecycleObject.TunnelLifecycle.BeginSwitch` | apps/ios/Shared/TunnelLifecycle+Switch.swift:36-50 | a new cycle towards the new target |
| `LifecycleObject.TunnelLifecycle.SwitchFinished` | apps/ios/Shared/TunnelLifecycle+Switch.swift:52-59 | up, or on to a recovery |
| `LifecycleObject.TunnelLifecycle.ScheduleLivenessTick` | apps/ios/Shared/TunnelLifecycle+Liveness.swift:17-20 | one liveness timer |
| `LifecycleObject.TunnelLifecycle.CheckLiveness` | apps/ios/Shared/TunnelLifecycle+Liveness.swift:22-34 | a stale tunnel begins a recovery |
| `LifecycleObject.TunnelLifecycle.LivenessTick` | apps/ios/Shared/TunnelLifecycle+Liveness.swift:36-43 | a check and the next tick |
| `LifecycleObject.TunnelLifecycle.Wake` | apps/ios/Shared/TunnelLifecycle+Liveness.swift:6-15 | a check soon after waking |
| `LifecycleObject.TunnelLifecycle.PathChanged` | apps/ios/Shared/TunnelLifecycle.swift:98-108 | records the path and asks the policy |
| `LifecycleObject.TunnelLifecycle.Fire` | apps/ios/Shared/TunnelLifecycle.swift:193-203 | a timer going off does its own work, once |
| `LifecycleObject.TunnelLifecycle.Handled` | apps/ios/Shared/TunnelLifecycle.swift:8-51 | one queue event is one step of the model the runs are made of, and keeps their invariant |
| `LifecycleLaws.PathChangeComesTo` | apps/ios/Shared/ReconnectPolicy.swift:71-93 | what a path change does to a session: another named network begins a recovery after 1.5 seconds, the same, the first or an unnamed one changes nothing, a lost one is looked at again when five seconds have passed since the settings were applied, or leaves the session waiting |
| `LifecycleLaws.OnlyAnotherNetworkRecovers` | apps/ios/Shared/TunnelLifecycle.swift:98-108 | over every run the network compared with is the one last reported: the same again changes nothing at all, another one begins a recovery |
| `LifecycleLaws.RecheckIsAPathChange` | apps/ios/Shared/TunnelLifecycle+Reconnect.swift:56-60 | a recheck handles the last path reported as if it were reported now |
| `LifecycleLaws.RecoveryAnswerComesTo` | apps/ios/Shared/TunnelLifecycle+Establish.swift:93-133 | in a recovery the awaited answer brings the tunnel up exactly when the settings are applied or only timed out, the interface is open and the core starts; else it fails the attempt: the delay, the next server and what is told, error by error |
| `LifecycleLaws.ArmedAttemptComesTo` | apps/ios/Shared/TunnelLifecycle+Reconnect.swift:74-114 | what an attempt comes to: a wait with the network down, a restart in place for the first one at the exit prepared, else the route prepared and its settings applied unless those are in force |
| `LifecycleLaws.StaleAnswerIsRemembered` | apps/ios/Shared/TunnelLifecycle+Establish.swift:93-112 | an answer nobody waits for records when it came and what it applied, and nothing else |
| `LifecycleLaws.SwitchComesTo` | apps/ios/Shared/TunnelLifecycle+Switch.swift:36-59 | a switch while up or recovering prepares the new server under a new cycle over the running core, stopped only once that succeeded; while waiting only the candidates change |
| `LifecycleLaws.SupersedeComesTo` | apps/ios/Shared/TunnelLifecycle+Switch.swift:25-34 | a switch during a start moves the same start on, under a new cycle, to the new server |
| `LifecycleLaws.LivenessTickComesTo` | apps/ios/Shared/TunnelLifecycle+Liveness.swift:17-43 | a tunnel that is up has its liveness timer armed; its firing begins a recovery exactly when the last handshake is over three minutes old outside the grace, else arms the next look |
| `LifecycleLaws.WakeComesTo` | apps/ios/Shared/TunnelLifecycle+Liveness.swift:6-15 | waking arms two looks, after 17 and 32 seconds, and gives 15 seconds of grace |
| `LifecycleLaws.WakeCheckComesTo` | apps/ios/Shared/TunnelLifecycle+Liveness.swift:22-34 | a look after waking begins a recovery exactly of a stale tunnel |
| `LifecycleLaws.StopComesTo` | apps/ios/Shared/TunnelLifecycle.swift:84-96 | a stop's cycle, effects in order, dead timers and what it forgets |
| `LifecycleLaws.StartComesTo` | apps/ios/Shared/TunnelLifecycle.swift:70-82 | a start's effects in order, its new session, and the blocking apply handed over, or its end with the host gone |
| `LifecycleLaws.BlockingAnswerComesTo` | apps/ios/Shared/TunnelLifecycle.swift:110-142 | the blocking routes' answer fails the start, or leads to its first candidate or to the end its session's refusal makes |
| `LifecycleLaws.CandidateAnswerComesTo` | apps/ios/Shared/TunnelLifecycle.swift:127-250 | a candidate's answer: the start succeeds exactly when the core came up, told once and then as the last path has it; else the next candidate worth trying is prepared, or the start ends, recovering with traffic blocked exactly for a system start that was not stopped |
| `LifecycleLaws.StartKeepsItsFirstPath` | apps/ios/Shared/TunnelLifecycle.swift:98-108 | a start remembers the first usable named path reported to it |
| `LifecycleLaws.AStartComesUp` | apps/ios/Shared/TunnelLifecycle.swift:70-163 | a run from the beginning to a tunnel that is up |
| `LifecycleLaws.NextSettles` | apps/ios/Shared/TunnelLifecycle.swift:145-177 | every event keeps a tunnel that is up watched and told up, a waiting one told in trouble, and the last named path the one compared with |
| `Reconnect.EveryCandidateIsTried` | apps/ios/Shared/TunnelLifecycle+Reconnect.swift:41-67 | of the rotation: any 3n failed attempts in a row, unknown-server rotations at will among them, make each of n candidates the target at least once |
| `Reconnect.TargetIsRotations` | apps/ios/Shared/ReconnectPolicy.swift:96-112 | after any failures the target is the number of rotations on from the first, modulo n |
| `Reconnect.RotationsGrow` | apps/ios/Shared/ReconnectPolicy.swift:48-50 | every three failed attempts in a row rotate at least once |
| `Reconnect.SwitchListLeadsWithTarget` | apps/ios/Shared/ReconnectPolicy.swift:115-118 | a switch's list leads with its target, falls back to the previous server, and holds each listed one once |
| `Reconnect.UnseenIsDistinct` | apps/ios/Shared/ReconnectPolicy.swift:100-107 | a candidate list names each server once, in the order first given |
| `Alerts.NeverLostAndBlocked` | apps/ios/Shared/AlertPolicy.swift:91-152 | lost and blocked are never displayed together over any run, exactly when no blocked alert was on the screen at launch |
| `Alerts.LeftoverBlockedMeetsLost` | apps/ios/Shared/AlertPolicy.swift:103-115 | a run from a blocked alert left by an earlier process in which both are displayed |
| `Alerts.RestoredOnlyAfterTold` | apps/ios/Shared/AlertPolicy.swift:126-134 | restored is posted exactly when the tunnel comes up after an outage alert was posted and alerts are allowed |
| `Alerts.NothingStaleAfterRecovery` | apps/ios/Shared/AlertPolicy.swift:126-140 | once connected, stopped, or restored after a told outage no outage alert is displayed; restored without one the screen is as it was, with none of this run's; never is one pending |
| `Alerts.TimerMatchesPending` | apps/ios/Shared/AlertPolicy.swift:103-115 | the lost timer runs exactly while a lost alert is pending, which is no outage told yet |
| `Alerts.AlertPolicy.Decide` | apps/ios/Shared/AlertPolicy.swift:91-101 | each event's actions and what is remembered |
| `Alerts.AlertPolicy.LostDelayElapsed` | apps/ios/Shared/AlertPolicy.swift:103-109 | posts lost only if still pending and allowed |
| `Alerts.AlertPolicy.BeginRecovering` | apps/ios/Shared/AlertPolicy.swift:111-115 | arms the lost delay once |
| `Alerts.AlertPolicy.Block` | apps/ios/Shared/AlertPolicy.swift:117-124 | posts blocked once, in place of lost |
| `Alerts.AlertPolicy.Recover` | apps/ios/Shared/AlertPolicy.swift:126-134 | clears the outage alerts and posts what fits |
| `Alerts.AlertPolicy.CancelPendingLost` | apps/ios/Shared/AlertPolicy.swift:142-146 | disarms the delay |
| `Alerts.PostedExactlyWhenDeserved` | apps/ios/Shared/AlertPolicy.swift:91-134 | over every run an event posts exactly the alert it deserves, by what was told since the outage began, and only with alerts on and the app away; the lost delay of ten seconds is armed exactly by a reconnect in an outage neither told nor pending |
| `Alerts.LostExactlyWhenElapsed` | apps/ios/Shared/AlertPolicy.swift:102-109 | the lost alert is posted exactly when its delay runs out with alerts allowed |
| `Redact.Apply` | daemon/mobile/redact.go:104-128 | for a fixed-length rule the scan, with its skips, replaces exactly the maximal bounded runs of that length and alphabet and keeps all else |
| `Redact.AccountRulesAreIdempotent` | daemon/mobile/redact.go:247-248 | either account rule changes nothing the second time, and no number of its kind stands readable in what it leaves |
| `Redact.CleanTextIsKept` | daemon/mobile/redact.go:104-128 | text with no readable number is left unchanged |
| `Redact.ReplacedAt` | daemon/mobile/redact.go:104-128 | a readable number becomes the marker |
| `Redact.SkipBlocked` | daemon/mobile/redact.go:146-152 | moves to the next position a match may start at |
| `Redact.RejectedIsKept` | daemon/mobile/redact.go:112-117 | skipping the whole run after a rejected match loses no match |
| `Redact.CopiedUpTo` | daemon/mobile/redact.go:104-128 | text in which nothing stands readable is kept up to any position that may start a number |
| `Redact.AccountRulesAre` | daemon/mobile/redact.go:247-248 | the two rules' alphabets, lengths and marker: digits, and digits with capitals but I, L, O and U |
| `Diagnostics.BudgetIsKept` | daemon/mobile/diagnostics.go:101-119 | the sections together retain at most the budget of their own bytes |
| `Diagnostics.SectionsKeepTheirPlace` | daemon/mobile/diagnostics.go:101-119 | names and order are kept, and a section shows its text, the omission notice, or a tail that starts a rune |
| `Diagnostics.FilledInOrder` | daemon/mobile/diagnostics.go:99-119 | the first section that overflows keeps the longest tail in the budget that starts a rune, or is omitted below 256 bytes |
| `Diagnostics.NothingKeptAfter` | daemon/mobile/diagnostics.go:101-119 | after it only empty text is kept |
| `Diagnostics.FittingTextIsCarried` | daemon/mobile/diagnostics.go:107-109 | a section whose text fits the budget with all before it is carried unchanged |
| `Diagnostics.OverflowIsCut` | daemon/mobile/diagnostics.go:110-116 | the first that does not fit shows the omission notice with fewer than 256 bytes left, else the truncation notice and its longest tail of at most what is left that starts a rune |
| `Diagnostics.RestIsLeftOut` | daemon/mobile/diagnostics.go:101-119 | every later section with any text shows the omission notice |
| `Diagnostics.RuneStartIsByItsBits` | daemon/mobile/diagnostics.go:92-97 | a byte starts a rune unless its first two bits are 10 |
| `Diagnostics.RuneStartFrom` | daemon/mobile/diagnostics.go:92-97 | the first rune start from a position on |
| `Diagnostics.Cap` | daemon/mobile/diagnostics.go:106-116 | one section's share of the budget, and what is left |
| `Diagnostics.CapSections` | daemon/mobile/diagnostics.go:101-119 | every section in its place with its fate |
| `Diagnostics.BuildDiagnosticsBody` | daemon/mobile/diagnostics.go:172-194 | answers the report with the largest halved budget that fits; for three sections two halvings always do, so the size error is never reached |
| `Diagnostics.HalvedAre` | daemon/mobile/diagnostics.go:181-191 | the budgets tried are 256, 128 and 64 KiB |
| `Diagnostics.SmallBudgetFits` | daemon/mobile/diagnostics.go:16-33 | 64 KiB of section text fits the limit however it is escaped |
| `Diagnostics.MetaFieldKeepsItsValue` | daemon/mobile/diagnostics.go:159-168 | a field is the first 64 runes of its value without the white space around it, or unknown where there is nothing else |
| `Diagnostics.NoteIsRedactedFirst` | daemon/mobile/diagnostics.go:122-135 | the whole trimmed note is redacted before it is cut: what is kept is the head of the redacted text, all of it up to 500 runes |
| `Diagnostics.NoteEndsBeforeACutMarker` | daemon/mobile/diagnostics.go:133-149 | a note cut within a redaction marker ends before that marker |
| `Diagnostics.CutMarkerIsDropped` | daemon/mobile/diagnostics.go:137-149 | a cut that runs through a marker takes the whole marker with it |
| `Diagnostics.OnlyAnOpenMarkerIsDropped` | daemon/mobile/diagnostics.go:138-147 | a cut drops exactly a marker under way at its end |
| `Diagnostics.LongNoteIsCut` | daemon/mobile/diagnostics.go:129-134 | a note over 500 runes is its first 500 but for a marker they end in and the white space before that |
| `Regions.Group` | apps/ios/Shared/Regions.swift:18-27 | the loop makes the regions in hub order, each with its servers in hub order |
| `Regions.KeyDropsTheNumber` | apps/ios/Shared/Regions.swift:106-108 | a trailing dash and number are not part of the key |
| `Regions.KeyDropsNothingElse` | apps/ios/Shared/Regions.swift:106-108 | nothing else is left out of it |
| `Regions.ByLoadIsStable` | apps/ios/Shared/Regions.swift:111-115 | a stable sort by load: ascending, a permutation, equal loads in hub order |
| `Regions.RetryOrderIsAPermutation` | apps/ios/Shared/Regions.swift:63-71 | for distinct ids the order holds every server once, and starts with a listed server |
| `Regions.FirstOfRetryOrder` | apps/ios/Shared/Regions.swift:63-71 | of every other region the order comes to its lightest node first |
| `Regions.CandidatesAre` | apps/ios/Shared/Regions.swift:74-83 | before the cut: the chosen id first, every other server of its region, and exactly the lightest node of each other region, each once |
| `Regions.CandidatesAreInOrder` | apps/ios/Shared/Regions.swift:62-83 | the order before the cut: the chosen id, its siblings by load, then the lightest node of each other region in hub order, wrapping round |
| `Regions.CandidatesAreCut` | apps/ios/Shared/Regions.swift:74-83 | duplicate-free, at most the limit, a prefix of the uncut list, led by the chosen id |
| `Regions.LightestIsLightest` | apps/ios/Shared/Regions.swift:111-115 | the lightest node of a region, the first in hub order among equals |
| `Ranges.AddressOfDotted` | apps/ios/Shared/SplitTunnelRanges.swift:98-121 | every 32-bit address is read back from its dotted form |
| `Ranges.AddressIsDotted` | apps/ios/Shared/SplitTunnelRanges.swift:98-112 | a text is read as an address if and only if it is the dotted form of that 32-bit number |
| `Ranges.TokenIsRead` | apps/ios/Shared/SplitTunnelRanges.swift:89-97 | an address, or an address and a length from 8 to 32, is the network with its host bits cleared; a shorter length is told apart |
| `Ranges.ReadTokenIs` | apps/ios/Shared/SplitTunnelRanges.swift:89-97 | any other token is refused as no IPv4 range |
| `Ranges.TokensArePartedBy` | apps/ios/Shared/SplitTunnelRanges.swift:68-87 | white space, and the commas and semicolons of any keyboard, part the tokens |
| `Ranges.UnpartedIsOneToken` | apps/ios/Shared/SplitTunnelRanges.swift:68-87 | and nothing else does |
| `Ranges.UniqueKeepsTheFirst` | apps/ios/Shared/SplitTunnelRanges.swift:122-125 | what is kept once is kept in the order it first came in |
| `Ranges.ParseHoldsWhatWasTyped` | apps/ios/Shared/SplitTunnelRanges.swift:39-48 | an accepted list holds the networks its tokens name; a refusal names the tokens of each kind and whether more than 32 were left |
| `Ranges.HostBitsAreCleared` | apps/ios/Shared/SplitTunnelRanges.swift:89-97 | a network's host bits, and no others, are cleared |
| `Ranges.NormalizeIsIdempotent` | apps/ios/Shared/SplitTunnelRanges.swift:51-56 | a normalized range normalizes to itself |
| `Ranges.ShownIsRead` | apps/ios/Shared/SplitTunnelRanges.swift:51-62 | a printed network is read back as that network and prefix |
| `Ranges.AcceptedListRoundTrips` | apps/ios/Shared/SplitTunnelRanges.swift:39-66 | a list the parser accepted is read back from its own text, free of duplicates and of at most 32 ranges |
| `Ranges.RefusedExactlyWhen` | apps/ios/Shared/SplitTunnelRanges.swift:39-48 | a list is refused exactly when a token is, or more than 32 different ranges are left |
| `DnsProbe.VerdictExactlyWhenDue` | daemon/internal/api/dns_probe.go:572-593 | over every run a missed round is a verdict exactly when it is the second in a row, or the first after a resume, and the last verdict not lifted since is five minutes old |
| `DnsProbe.VerdictsAreApart` | daemon/internal/api/dns_probe.go:572-593 | two verdicts with no lifting of the cooldown between them are at least five minutes apart |
| `DnsProbe.RedialComesBackEarly` | daemon/internal/api/service.go:2672-2687 | a run with neither deferral nor session end in which two verdicts come as close as one likes: noting a dead transport lifts the cooldown too |
| `DnsProbe.VerdictNeedsTwoMisses` | daemon/internal/api/dns_probe.go:572-586 | outside the resume window a verdict is the second missed round with nothing forgiven between |
| `DnsProbe.NextKeeps` | daemon/internal/api/dns_probe.go:564-622 | the count, the cooldown and what is remembered of resumes and dead transports are what the log of events says |
| `DnsProbe.ResumesAreNotedOnce` | daemon/internal/api/service.go:2413-2431 | a second notice of one resume is ignored, and one miss is a verdict only within 90 seconds of a resume |
| `DnsProbe.DyingAgainKeepsTheCooldown` | daemon/internal/api/service.go:2672-2687 | a transport that dies again within ten minutes of its redial leaves the cooldown standing, and any other death lifts it |
| `DnsProbe.SilentRoundIsJudgedByTheGain` | daemon/internal/api/dns_probe.go:384-407 | a silent round of the live profile is a miss exactly unless the peer is known to have sent 256 bytes or more; two such, or one after a resume, outside the cooldown are the verdict |
| `DnsProbe.OtherRoundsAreNoVerdict` | daemon/internal/api/dns_probe.go:366-387 | a reply, a refused port or a reply too large forgives the misses; any other round changes neither count nor cooldown |
| `DnsProbe.ScheduleAfterCalls` | daemon/internal/api/dns_probe.go:597-622 | when the next round is due after each other call, and what it does to recovery |
| `DnsProbe.Service.constructor` | daemon/internal/api/service.go:200-232 | an idle schedule |
| `DnsProbe.Service.Due` | daemon/internal/api/dns_probe.go:554-562 | claims a round that is due |
| `DnsProbe.Service.RecordSuccess` | daemon/internal/api/dns_probe.go:564-568 | forgives the misses |
| `DnsProbe.Service.RecordMiss` | daemon/internal/api/dns_probe.go:572-593 | counts, and gives a verdict when due |
| `DnsProbe.Service.DeferRebuild` | daemon/internal/api/dns_probe.go:597-602 | gives the verdict back |
| `DnsProbe.Service.ResetProbe` | daemon/internal/api/dns_probe.go:606-611 | restarts the count, the cooldown survives |
| `DnsProbe.Service.EndProbeSession` | daemon/internal/api/dns_probe.go:615-622 | clears the schedule, the cooldown and the rescue log's stamp |
| `DnsProbe.Service.HoldHealthChecks` | daemon/internal/api/service.go:2987-2997 | holds health checks, forgives the misses and ends any backoff |
| `DnsProbe.Service.RescueLogDue` | daemon/internal/api/dns_probe.go:514-522 | claims the rescue log once per interval |
| `DnsProbe.Service.OnSystemResume` | daemon/internal/api/service.go:2413-2431 | one resume lifts the cooldown, holds health checks, ends any backoff and opens the window in which one miss is enough |
| `DnsProbe.Service.NoteDeadTransport` | daemon/internal/api/service.go:2672-2687 | sets the next cascade's lead, and lifts the cooldown unless the transport is demoted for dying again |
| `DnsProbe.Service.DataPathIsDead` | daemon/internal/api/dns_probe.go:352-407 | dead only when every resolver tried went unanswered, the profile is still live, the peer sent fewer than 256 bytes, and the miss is a verdict; what each other round does to the count |
| `DnsProbe.ProbeServerOrder` | daemon/internal/api/dns_probe.go:411-421 | at most two resolvers, consecutive from a member on and round |
| `DnsProbe.TryResolvers` | daemon/internal/api/dns_probe.go:366-380 | the first outcome that settles the round, or that every query went unanswered |
| `DnsProbe.GateAnswers` | daemon/internal/api/dns_probe.go:443-502 | the gate's answer by the outcome of the query it stopped at |
| `DnsProbe.ProveDataPath` | daemon/internal/api/dns_probe.go:431-502 | the resolvers take turns, one for each query gone unanswered; a candidate is rejected only by two such with a silent peer, or by an adapter not ready at the deadline |

## Left out

- Cryptography, wire formats, JSON decoding, sockets, engines and devices: their answers are arbitrary.
- TunnelRuns.NextKeeps: a start on its way may bring its device up, report, publish or give up in any order; WalkCascade has the loop's own order, with one start alone.
- Delivery order at the status sink: only the stored status is modelled.
- Other processes writing the shared store, a store that is absent, and corrupt stored values.
- The config blob and the record of a pending deregistration: written without an epoch check, they may return after a wipe.
- Wrap-around of the 64-bit epochs and generations.
- The probes and proxies inside one search, the dead drop's contents and the staggered race of resolvers.
- The applied settings' fingerprint when a superseded apply overlaps a newer one: no claim.
- The lifecycle's memory log, the host's note of reasserting, and the multihop choice, which is part of the answer to a prepare.
- Real time: the timers of the lifecycle and the watchdogs share one clock and may fire in any order.
- General regular expressions, the other redaction rules, and idempotence of the whole pipeline.
- Invalid UTF-8 in redacted text: text is runes already decoded.
- The JSON encoder beyond its bound of six bytes a byte, and a creation time longer than 64 characters.
- Unicode beyond two facts: digits, dots and slashes fold to themselves and are not white space, a space is.
- Subtitles, slots, recents and the rest of the region list's display.
- Building, sending and matching the probe's packets, and the readiness wait before the bring-up gate.
- `anytls`, transports, purchases, localisation and layout.
- SettingsApply.run: that its handler is cleared under a lock is modelled as one atomic step.
- DnsProbe.ProveDataPath: takes the host's answers as a finite list and answers Waiting when it runs out, because the source loops until its deadline.
- Regions.ByLoad: an insertion sort stands for the library's sort, which the stated order determines.
- HubRuns.NextKeeps: the search lock is one slot, so a caller waiting for it is not a thread of its own.
