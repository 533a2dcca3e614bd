# Match automation: a verified model

This project models the long-lived state machines of the portal's match automation and proves
what they keep under every interleaving, every crash point and every answer of the systems they
call. Each protocol is an abstract table with one atomic action for each repository call; a
*schedule* is any sequence of such actions by any number of callers, and a handler that dies is
one whose remaining actions never come. The handlers themselves are methods on classes whose
fields are the stored columns. Where a method has `env` parameters they are what everybody else
does while it waits, and its postcondition says that the new state is the old one after the
schedule it performed, so every theorem about schedules holds of every mixture of handlers. A
method without them is the handler undisturbed; its interleavings are in the schedules.

| files | what they model |
|---|---|
| `RefreshTokens`, `RefreshHandlers` | rotation of refresh tokens against logout and logout-all |
| `PugLock`, `PugHandlers` | locking a pick-up game, binding its match, rollback, cancel, sweep, hooks |
| `WheelSpin`, `WheelHandlers`, `WheelDraw`, `WheelPool` | wheel spins, the weighted draw, the padded pool |
| `Reservations`, `ReservationHandlers` | server reservations, the load retry cap and its re-queue cycle |
| `ServerEvents` | webhook dedupe, processing, the sweep of unprocessed events |
| `Substitutions`, `SubstitutionHandlers` | the roster on the live server and the roster the database folds |
| `CheckIn`, `CheckInProgress`, `CheckInSweep` | check-in windows: opening, repair, no-shows, and that they progress |
| `VetoGate` | when the lifecycle pass may start, flip, act on or cancel a map veto |
| `SagaRedrive` | re-driving stuck completion sagas |
| `DirectoryWalk`, `KeyRollUp`, `ObjectPages`, `LocalStorage` | object listing: walk, roll-up, paging, page walkers |
| `Findings`, `LineupRules` | demo and lineup findings, from detection to review |
| `ClaimedId` | the Steam identifier in an OpenID claimed id |
| `MatchLifecycle` | match statuses and the transitions allowed between them |
| `Schedules`, `Collections`, `Options` | folding actions over a state; sequences and sets; optional values |

Refreshes, spins, locks, cancellations, check-in passes, veto calls and saga re-drives are broken
up at every read and write. A transition of a match is two steps as well: its check against the
table, and a write that looks at nothing. The handlers of reservations, events and substitutions
run to their end as one step each.

## Where the code and its comments or promises disagree

The model follows the code. Each point is a lemma with a concrete run or an exact condition.

- `logout_all` revokes every session, but a rotation that has consumed its token and not yet
  written the successor mints a live one afterwards: `LogoutAllIsFinalExactly`.
- The comment at the failed binding of a container match calls it unreachable; it happens
  whenever a cancel moves the status in between: `BindingFailsExactly`, `BindingCanFail`.
- `cancel_pug` promises to cancel the match as well. It misses one that is bound after its read
  (`CancelCanMissMatch`); one that is already in progress, since cancelling a live lobby asks for
  a transition the table forbids and the error is only logged (`CancelLiveLeavesMatch`); and one
  whose cancellation it wrote in time, but before the write of a transition checked earlier
  (`CancelCanBeOvertaken`). Exactly these: `CancelMissesMatchExactly`.
- The comment at the container creation expects a failed lock to leave the lobby gathering; a
  locker that dies leaves it in `map_selection` with no match, where only the sweep or a cancel
  can end it: `AbandonedNeverRecovers`.
- The wheel action is described as bound to the action number the spin observed. The insert is,
  the session write is not: a late one can take the session back a game or revive a cancelled
  session: `AdvanceCoversExactly`, `SessionCanFallBehind`, `CancelIsFinalExactly`. What a spin
  recorded still agrees with the maps the session shows: `SpinsAreTrue`.
- The roster fold is ordered by creation, the server's edits by application, so two approvals can
  cross: `DoStaysSyncedExactly`, `ApprovalsCanCross`.
- The comment on opening a window calls an early deadline on a scheduled match harmless. It is
  not when a proposal then moves the match: `LeftoverDeadlineCanForfeitEarly`, `FairForeverExactly`.
- A match both of whose sides have checked in stays in check-in past its deadline; the pass only
  logs it: `BothInStays`.
- Accepting a schedule proposal sets the status without looking at it, so a veto under way comes
  back to before check-in with its clock running: `ReopenedVetoIsActedOn`.
- A timeout looks at the deadline of a session, not at its status, and the decider that follows an
  action looks at nothing, so the cancelled session of a dead match can be revived by a pass that
  looked before, or completed by a captain who acted before: `CancelledForGoodExactly`, `Revives`.
- A saga row is promised at most `max_retries` executions and no silent give-up. Its own process,
  if only slow, writes its copy back, retry count and history included: `RetryBoundExactly`,
  `OwnerPutsBack`, `SlowOwnerLosesItsRecord`, `AppliedNeverExecutes`. The re-drive itself retires a
  live row, so one lost write can give it up unseen (`NoSilentGiveUpAlone`, `RetiredInSilence`); so
  does any other completion of the match (`NoSilentGiveUp`, `SupersededInSilence`), and a pass that
  dies before it reports (`NoSilentDeath`, `DiesBeforeReport`).
- The writes of the veto service look at nothing either, so a start that was read in time and
  written after the last action puts a completed veto back to its coin: `LateStartUndoes`,
  `DoneForGoodExactly`. The status hook of a lobby likewise: `EndedForGoodExactly`.
- A lifecycle event sets the status of its reservation whatever that is, so a late one opens an
  ended reservation again, over the retry cap or not: `LateEventReopensExactly`, `RevivedPastTheCap`.
- The local backend turns backslashes into slashes, so two files can share a key, and a repeated
  key at a page boundary makes the cursor go back: `BackslashCollides`, `PagingIsCompleteExactly`,
  `RepeatedKeyNeverEnds`.

## Model

| member | source | states |
|---|---|---|
| RefreshTokens.OneUseGuarantee | crates/portal-api/src/handlers/auth.rs:240-372 | after any schedule of sign-ins, refreshes, logouts, logout-alls and crashes, the unrevoked tokens of a sign-in's family and the handlers that consumed one without yet minting its successor number at most one together |
| RefreshTokens.AtMostOneSuccessor | crates/portal-api/src/handlers/auth.rs:296-353 | no token is ever exchanged for two, and an exchanged token is revoked |
| RefreshTokens.DeadTokenNeverMints | crates/portal-api/src/handlers/auth.rs:266-294 | a refresh that reads a revoked or expired row mints nothing, whatever follows |
| RefreshTokens.ExpiredTokenNeverMints | crates/portal-api/src/handlers/auth.rs:288-294 | and after its expiry no later call that presents it mints anything, over every schedule |
| RefreshTokens.IssuedTokenRefreshes | crates/portal-api/src/handlers/auth.rs:316-353 | over every schedule after its issue by a sign-in or a refresh, a token presented before its expiry reaches the race and wins it for the same user, if nothing revokes it before |
| RefreshTokens.RotatesForActiveOnly | crates/portal-api/src/handlers/auth.rs:307-337 | over every schedule, a call that rotates a token has found its account active and its player there |
| RefreshTokens.StaysLiveExactly | crates/portal-db/src/adapters/refresh_token.rs:97-132 | a live row stays live over exactly the schedules without a winning rotation, an expiry or logout write on it, or a sweep over its user |
| RefreshTokens.LogoutAllIsFinalExactly | crates/portal-api/src/handlers/auth.rs:446-470 | logout-all leaves the user without a live token until the next sign-in if and only if no rotation holds a consumed token |
| RefreshHandlers.TokenService.Login | crates/portal-api/src/handlers/auth.rs:163-211 | a sign-in adds one live row of the user with the given expiry and touches no other |
| RefreshHandlers.TokenService.Refresh | crates/portal-api/src/handlers/auth.rs:240-372 | every reply by the row at its read and at the race for it; an issued token is live, succeeds the presented one and has its user and family and the given expiry; an expired one is revoked; any other reply minted nothing; a replay or a refusal that lands leaves the user no live row |
| RefreshHandlers.TokenService.TryRevokeRow | crates/portal-db/src/adapters/refresh_token.rs:109-119 | won exactly by the caller that finds the row unrevoked; no other row changes |
| RefreshHandlers.TokenService.Logout | crates/portal-api/src/handlers/auth.rs:392-427 | the presented token is not live afterwards, whatever the others did in between; the handler writes nothing else |
| RefreshHandlers.TokenService.LogoutEverywhere | crates/portal-api/src/handlers/auth.rs:446-470 | one statement over every row of the user and of no other, final exactly when nobody holds a consumed token |
| PugLock.AtMostOneLocker | crates/portal-api/src/pug_flow.rs:59-179 | over any schedule of lockers, cancels, sweeps and hooks, at most one caller is between its winning compare-and-set and its exit |
| PugLock.RollbackUndoesOwnLock | crates/portal-api/src/pug_flow.rs:84-90 | a rollback that changes the status undoes the caller's own lock on a lobby with no match |
| PugLock.BoundForever | crates/portal-db/src/adapters/pug.rs:339-361 | once bound, a match stays bound and the lobby never gathers again |
| PugLock.BindingFailsExactly | crates/portal-api/src/pug_flow.rs:147-173 | the binding of a fresh match is refused if and only if the status has left map selection |
| PugLock.BindingCanFail | crates/portal-api/src/pug_flow.rs:147-173 | a run in which it is refused |
| PugLock.CancelMissesMatchExactly | crates/portal-api/src/pug_flow.rs:598-655 | when the tear-down ends, no running match is left under the lobby whatever anyone still does, before the lobby is cancelled or after, if and only if the match that was read is over or cancelled by this write and no transition checked before is still to be written; or none was read and the lobby is settled |
| PugLock.CancelCanMissMatch | crates/portal-api/src/pug_flow.rs:598-620 | a run in which a match bound after the read goes on |
| PugLock.CancelLiveLeavesMatch | crates/portal-api/src/pug_flow.rs:623-655 | a run without faults or races in which cancelling a live lobby leaves its match in progress |
| PugLock.CancelCanBeOvertaken | crates/portal-domain/src/services/tournament/match_lifecycle.rs:98-130 | a run in which the cancellation is written in time, and the server's transition, checked before, after it |
| PugLock.SettledExactly | crates/portal-api/src/pug_flow.rs:59-179 | from any state at the tear-down: a running match can be left behind unless the bound one is over with nobody about to write it back, or none is bound and no locker can still bind one |
| PugLock.TornDownMeansDead | crates/portal-db/src/adapters/tournament/match_.rs:166-188 | a match stays over whatever anyone does, if and only if it is over and no transition checked before is still to be written |
| PugLock.AbandonedNeverRecovers | crates/portal-api/src/pug_flow.rs:230-240 | a locked lobby whose locker died never gathers and never gets a match |
| PugLock.EndedForGoodExactly | crates/portal-api/src/pug_flow.rs:673-685 | a completed, cancelled or expired lobby stays so whatever anyone does, if and only if no hook that read it before is about to write that it is live |
| PugHandlers.Lobby.LockPug | crates/portal-api/src/pug_flow.rs:59-179 | the whole handler against any interleaving; undisturbed, it makes one match in pick/ban and binds it, or rolls back to gathering, by the answers it got |
| PugHandlers.Lobby.TransitionStatus | crates/portal-db/src/adapters/pug.rs:301-317 | won exactly from the expected status |
| PugHandlers.Lobby.CheckTransition | crates/portal-domain/src/services/tournament/match_lifecycle.rs:108-113 | a transition is checked against the match as read |
| PugHandlers.Lobby.WriteTransition | crates/portal-db/src/adapters/tournament/match_.rs:166-188 | and written without a condition |
| PugHandlers.Lobby.CancelPug | crates/portal-api/src/pug_flow.rs:598-655 | the whole handler against any interleaving, its tear-down a check and a write: accepted exactly when authorized and not over; it then ends cancelled, with the match over at the tear-down when its check passed and its write landed, and with none running if the lobby was settled then |
| PugHandlers.Lobby.TearDown | crates/portal-api/src/pug_flow.rs:623-655 | check, wait, write; the match ends cancelled when the check passed and the write landed, and a refusal or a lost write goes on |
| PugHandlers.Lobby.SweepPug | crates/portal-api/src/pug_flow.rs:807-862 | the sweeper against any interleaving: exactly the lobbies that stalled or whose match ended without them are torn down and cancelled |
| PugHandlers.Lobby.ExpireStale | crates/portal-api/src/pug_flow.rs:810-830 | a gathering lobby expires, any other is left |
| PugHandlers.Lobby.OnVetoCompleted | crates/portal-api/src/pug_flow.rs:659-671 | the lobby of the match waits for its server exactly from map selection |
| PugHandlers.Lobby.OnMatchLive | crates/portal-api/src/pug_flow.rs:673-685 | a lobby that was not over at the read is live afterwards, whatever happened in between; one that was over is left |
| PugHandlers.Lobby.OnSeriesEnd | crates/portal-db/src/adapters/pug.rs:363-388 | the lobby of the match is completed unless it is cancelled or expired |
| WheelSpin.SpinsAreTrue | crates/portal-api/src/pug_flow.rs:523-551 | over any schedule of spinners, cancellations and crashes each audit row names the committed action of its game, rows name distinct maps of the pool, and the session, as far as it goes, shows the same maps |
| WheelSpin.ReadingsAgree | crates/portal-domain/src/services/tournament/veto.rs:459-497 | two readings of the selected maps agree as far as both go |
| WheelSpin.AdvanceCoversExactly | crates/portal-domain/src/services/tournament/veto.rs:765-900 | the session write keeps every audited game in the selection if and only if none is numbered above the game being written |
| WheelSpin.TimelyRunCovers | crates/portal-domain/src/services/tournament/veto.rs:459-497 | while each session write comes at the action number it was computed from, every audited game is in the selection |
| WheelSpin.SessionCanFallBehind | crates/portal-domain/src/services/tournament/veto.rs:765-900 | a run of three spinners that audits two games and shows one |
| WheelSpin.CancelIsFinalExactly | crates/portal-domain/src/services/tournament/veto.rs:516-535 | a cancelled session stays cancelled if and only if no spinner is past the status check |
| WheelSpin.CompletedMeansSpun | crates/portal-domain/src/services/tournament/veto.rs:864-900 | over every run the session is running only while a map is to be spun, completed only when all are, and then shows the map of each action row |
| WheelHandlers.VetoTables.SpinWheel | crates/portal-api/src/pug_flow.rs:475-551 | the whole handler against any interleaving: when it answers what, and that a spun game is in the action log and the audit alike; undisturbed, the drawn map is selected, leaves the pool, and the last one completes the session |
| WheelHandlers.VetoTables.CreateAction | crates/portal-db/src/adapters/tournament/veto.rs:321-379 | a taken action number returns the committed row |
| WheelHandlers.VetoTables.InsertSpin | crates/portal-db/src/adapters/pug.rs:685-706 | the first audit row of a game stays |
| WheelHandlers.VetoTables.CancelSession | crates/portal-domain/src/services/tournament/veto.rs:516-535 | an ended session is left alone; a running one is cancelled, for good exactly when nobody is past the check |
| WheelDraw.AggregateWeights | crates/portal-domain/src/services/pug.rs:546-577 | every allowed map is a segment, weighing its nominations or one |
| WheelDraw.Land | crates/portal-domain/src/services/pug.rs:581-606 | the walk lands on the only segment that covers the roll |
| WheelDraw.DrawIsFair | crates/portal-domain/src/services/pug.rs:581-606 | each segment wins on exactly as many rolls as its weight |
| WheelPool.Deduplicate | crates/portal-domain/src/services/pug.rs:696-705 | each nominated map once, none lost, in the order of first nomination |
| WheelPool.PadFromDefaults | crates/portal-api/src/pug_flow.rs:208-226 | padding succeeds exactly when nominations and defaults together have enough maps; the nominations stay first, no map repeats, the length is as needed, and the pads are a beginning of the defaults in their order |
| Reservations.OpenReservations | crates/portal-api/src/game_server_flow.rs:159-253 | over any run, late events included, one open reservation for a match and for a server; one on its first run has fewer than three failed loads, and only an ended and reopened one has more |
| Reservations.FailuresBounded | crates/portal-api/src/game_server_flow.rs:365-417 | over any run, late events included, failed loads of a match are at most three for each server, plus three for each quarantine lifted or lost, plus two for each reservation of the match ended otherwise |
| Reservations.AtMostThreePerServer | crates/portal-api/src/game_server_flow.rs:365-417 | with none of these, at most three for each server |
| Reservations.EndedNeverLoads | crates/portal-api/src/game_server_flow.rs:835-852 | over any run, a reservation that ended once is never loaded again, reopened or not |
| Reservations.LateEventReopensExactly | crates/portal-db/src/adapters/game_server.rs:887-899 | a late event reopens an ended reservation, over the cap or not, if and only if no unique index refuses |
| Reservations.RevivedPastTheCap | crates/portal-api/src/game_server_flow.rs:835-852 | a run that ends with a reservation ready after three failed loads |
| Reservations.LoadsPerEntry | crates/portal-api/src/game_server_flow.rs:297-417 | one entry into the cycle sends at most two LoadMatch, a request at most one, however the agents answer |
| Reservations.DriveLoadsExactly | crates/portal-api/src/game_server_flow.rs:1217-1310 | a pass sends a LoadMatch exactly for a pending or configuring reservation with a server, or a pending one that finds a free one |
| Reservations.RequestAddsOne | crates/portal-api/src/game_server_flow.rs:159-253 | a request that goes ahead adds one row and touches no other row or server but the one it takes; without a config the row has failed, otherwise it waits, is configuring on a loading server, or holds a reserved one after one refusal |
| Reservations.RequestLeavesOne | crates/portal-api/src/game_server_flow.rs:159-253 | a request leaves the match with an open reservation exactly when it had one or may have one, and asking again changes nothing |
| Reservations.ReplacementIsElsewhere | crates/portal-api/src/game_server_flow.rs:376-404 | after the last failure the replacement is a fresh reservation, not on the marked server |
| Reservations.AtTheCap | crates/portal-api/src/game_server_flow.rs:376-404 | the third failed load fails the reservation for good and marks its server, or frees it if the mark is lost; a new one is open exactly when the match wants a server and its config builds |
| Reservations.RunKeepsInv | migrations/0082_game_servers.sql:132-137 | both partial unique indexes, the retry cap of first runs and the accounting of failures hold in every reachable state, late events included |
| Reservations.NoServerLeaks | crates/portal-db/src/adapters/game_server.rs:754-788 | from a fleet with no busy server, over every run, a server that is reserved, loading or in a match is held by one open reservation |
| Reservations.FinishFrees | crates/portal-db/src/adapters/game_server.rs:774-782 | a reservation that ends, in whatever way, leaves its busy server available, a marked one marked and every other server as it was |
| ReservationHandlers.Dispatcher.RequestAssignment | crates/portal-api/src/game_server_flow.rs:159-253 | the state after a request, through the mutually recursive handlers, and when it answers with a reservation |
| ReservationHandlers.Dispatcher.SendLoad | crates/portal-api/src/game_server_flow.rs:297-362 | the recursion ends and amounts to one load, or one load, one cap and one request; an accepted load puts reservation and server to loading, a refusal below the cap counts and changes nothing else |
| ReservationHandlers.Dispatcher.HandleLoadFailure | crates/portal-api/src/game_server_flow.rs:365-417 | the same from the failure on |
| ReservationHandlers.Dispatcher.TryAllocateAndLoad | crates/portal-api/src/game_server_flow.rs:257-293 | a pending reservation is placed on a free eligible server if there is one |
| ReservationHandlers.Dispatcher.Allocate | crates/portal-db/src/adapters/game_server.rs:667-752 | nothing when no server qualifies, an error when the unique index refuses the one picked; otherwise reservation and server are bound in one step |
| ReservationHandlers.Dispatcher.Release | crates/portal-db/src/adapters/game_server.rs:754-788 | the reservation ends; its server is available if it was reserved, loading or in a match, as marked if it was not, and no other server changes |
| ReservationHandlers.Dispatcher.CancelAssignment | crates/portal-api/src/game_server_flow.rs:432-460 | cancels the one open reservation of the match and frees its server, or reports that there is none |
| ReservationHandlers.Dispatcher.ProcessLifecycle | crates/portal-api/src/game_server_flow.rs:835-875 | series_start and going_live on a reservation in any status, refused by the indexes only; series_start puts its server in the match, and nothing else changes |
| ReservationHandlers.Dispatcher.DriveListed | crates/portal-api/src/game_server_flow.rs:1217-1310 | one listed reservation driven on, with a LoadMatch exactly when it has or finds a server |
| ReservationHandlers.Dispatcher.MaintenancePass | crates/portal-api/src/game_server_flow.rs:1217-1310 | the pass is a run of drives, keeps the invariant and sends at most two LoadMatch for each listed reservation |
| ServerEvents.AttemptsBounded | crates/portal-api/src/game_server_flow.rs:749-833 | over any stream of webhooks, sweeps and deaths each stored event is processed at most twice and succeeds at most once, plus once for each handler that died holding it; replays of lifecycle events, processed again by design, are not counted |
| ServerEvents.AtMostOnce | crates/portal-api/src/game_server_flow.rs:749-833 | with no deaths, at most two attempts and one success for each dedupe key |
| ServerEvents.DeathCanCountTwice | crates/portal-api/src/game_server_flow.rs:1371-1409 | one death between processing and marking makes an event count twice |
| ServerEvents.FirstDelivery | crates/portal-api/src/game_server_flow.rs:802-832 | after a first delivery the event is processed if and only if it succeeded, its reservation is where it says, and a failed one is due from a minute on |
| ServerEvents.RetriedOnce | crates/portal-api/src/game_server_flow.rs:1371-1409 | a failed first delivery stays due through any schedule until a sweep lists it, which attempts it a second and last time; if that succeeds it has one success and the reservation is where the event says |
| ServerEvents.FirstDeath | crates/portal-api/src/game_server_flow.rs:749-832 | an event whose handler died, before or after processing it, is due as well |
| ServerEvents.OthersMoveNothing | crates/portal-api/src/game_server_flow.rs:835-918 | over every schedule, round ends, map results, backups and unknown events move no reservation |
| ServerEvents.ReplaysDoNotMatter | crates/portal-api/src/game_server_flow.rs:785-803 | a run with a scoring event delivered again, anywhere later, ends as the run without it |
| ServerEvents.LifecycleAlwaysProcessed | crates/portal-api/src/game_server_flow.rs:785-803 | series_start and going_live reach processing however often they came before |
| ServerEvents.EventStore.IngestServerEvent | crates/portal-api/src/game_server_flow.rs:749-833 | the handler is one delivery of the schedule: a new event is stored with one attempt and is processed exactly if it succeeded, a known one is dropped or, for series_start and going_live, processed again; the reservation ends where the event says and no other moves |
| ServerEvents.EventStore.SweepUnprocessed | crates/portal-api/src/game_server_flow.rs:1371-1409 | the pass is a run of retries, the due events lose exactly the listed ones, all of them when there are at most twenty and twenty otherwise, and the count is that of the successes |
| Substitutions.DoStaysSyncedExactly | crates/portal-api/src/game_server_flow.rs:1512-1665 | a handler keeps server roster and database fold equal if and only if the edit it lands agrees with the later rows and the other side |
| Substitutions.EditStaysSyncedExactly | crates/portal-api/src/game_server_flow.rs:1725-1843 | the same for one edit |
| Substitutions.OrderlyRunStaysSynced | crates/portal-api/src/game_server_flow.rs:1847-1923 | over any run of such requests, approvals, halftime blocks, agent failures and retries the two rosters stay equal |
| Substitutions.CreationOrderStaysSynced | crates/portal-api/src/game_server_flow.rs:1671-1843 | over any run whose edits land in the order of their requests, for players that leave one side only, the two rosters stay equal |
| Substitutions.ImmediateRunStaysTidy | crates/portal-api/src/game_server_flow.rs:1512-1665 | when requests apply at once the rosters stay equal, disjoint and free of repetitions, with no further condition |
| Substitutions.ImmediateSwaps | crates/portal-api/src/game_server_flow.rs:1512-1665 | such a request takes the outgoing player out, puts the incoming one in on the same side, and moves nobody else |
| Substitutions.OneLiveRun | migrations/0082_game_servers.sql:194-195 | over every run no two live rows take out the same player |
| Substitutions.ApprovalsCanCross | crates/portal-api/src/game_server_flow.rs:1890-1923 | a run of admissible requests whose late approval parts the two rosters |
| SubstitutionHandlers.MatchRosters.EffectivePlayerIds | crates/portal-api/src/game_server_flow.rs:1671-1721 | the loop computes the fold of the applied rows over the registered roster |
| SubstitutionHandlers.MatchRosters.RequestSubstitution | crates/portal-api/src/game_server_flow.rs:1512-1665 | each answer by the two effective rosters and the live rows; accepted exactly when admissible on both, and then one row is added, applied, parked or awaiting approval |
| SubstitutionHandlers.MatchRosters.CancelSubstitution | crates/portal-api/src/handlers/game_servers/substitutions.rs:199-238 | any row but an applied one is cancelled, whatever its status |
| SubstitutionHandlers.MatchRosters.RejectSubstitution | crates/portal-api/src/handlers/game_servers/substitutions.rs:315-360 | exactly a row that is still to be applied is rejected |
| SubstitutionHandlers.MatchRosters.RetryApplying | crates/portal-api/src/game_server_flow.rs:1847-1881 | every parked row whose edit the server takes becomes applied, no other row changes |
| CheckIn.NotExpiredInItsPass | crates/portal-api/src/background/mod.rs:206-229 | a deadline stamped since a pass began is never expired in that pass, whatever happens in between |
| CheckIn.RestampNeverEarlier | crates/portal-api/src/background/mod.rs:369-382 | re-stamping against one scheduled time never moves a deadline earlier nor past what the clock allows |
| CheckIn.NoEarlyTimeout | crates/portal-api/src/background/mod.rs:206-229 | over a run in which each stamp knows the scheduled time and each reschedule stays within the standing deadline, nothing expires before scheduled time plus grace |
| CheckIn.LeftoverDeadlineCanForfeitEarly | crates/portal-domain/src/services/tournament/scheduling.rs:216-227 | an interrupted opening, an accepted proposal and an early check-in forfeit the other side long before the new time |
| CheckIn.OpenWindowIsARun | crates/portal-api/src/background/mod.rs:351-402 | the opening, cut short anywhere, is a schedule of the actions above |
| CheckIn.RepairIsARun | crates/portal-api/src/background/mod.rs:417-442 | and so is a repair that lands |
| CheckIn.InExactly | crates/portal-domain/src/services/tournament/match_lifecycle.rs:221-300 | over every run a seated side is in exactly if it was or has checked in itself |
| CheckIn.SeatedStays | crates/portal-db/src/adapters/tournament/match_.rs:388-450 | whoever is seated stays until somebody else is seated on the same side |
| CheckInProgress.NeverStranded | crates/portal-api/src/background/mod.rs:172-229 | whatever an earlier crash left of a due match and whoever acts in between, lossy and dying passes and stale writes included, as long as nobody else's write puts the match back before pick/ban: after one whole pass and another begun past the longest grace, it has left check-in, unless both sides are in |
| CheckInProgress.BothInStays | crates/portal-api/src/background/mod.rs:919-931 | and if both sides are in, no schedule of passes ever takes it out |
| CheckInProgress.PassOpens | crates/portal-api/src/background/mod.rs:351-442 | one whole pass begun when the match is due leaves it open with a deadline no later than the grace from its end, or past check-in |
| CheckInProgress.PassCloses | crates/portal-api/src/background/mod.rs:913-969 | one whole pass begun after the deadline settles it, whoever acts in between without putting it back, unless both sides are in |
| CheckInProgress.NeverJudgedInItsPass | crates/portal-api/src/background/mod.rs:206-229 | once a pass has stamped a match it never comes to judge it in that pass, over every schedule |
| CheckInProgress.FairForeverExactly | crates/portal-api/src/background/mod.rs:357-382 | the deadline stays at least scheduled time plus grace over every schedule without a further reschedule, if and only if the pass holds no copy from before one |
| CheckInProgress.PresentIsSafeExactly | crates/portal-api/src/background/mod.rs:913-969 | either side, once it has checked in, is never made the loser by any pass, over every schedule, if and only if the pass holds no copy from before it came in that shows the other side present, and no verdict against it |
| CheckInProgress.ForfeitNamesOpponents | crates/portal-domain/src/services/tournament/forfeit.rs:387-401 | over every schedule without seating, a forfeit by a pass names the two distinct participants, one as winner and the other as loser |
| CheckInProgress.NeverOpensEarly | crates/portal-api/src/background/mod.rs:172-205 | over every schedule, no pass opens a window or stamps a deadline more than the lead before the scheduled time |
| CheckInProgress.DeadlineFirst | crates/portal-api/src/background/mod.rs:351-402 | over every schedule, lost writes and deaths included, a pass about to open a window has a deadline on the row |
| CheckInProgress.RescheduledComesBack | crates/portal-domain/src/services/tournament/scheduling.rs:216-227 | an accepted proposal brings a match back from any status, and once it is due the next whole pass opens it |
| CheckInProgress.RescheduledWaits | crates/portal-domain/src/services/tournament/scheduling.rs:216-227 | and before that no pass does |
| CheckInProgress.LeftIsSafe | crates/portal-api/src/background/mod.rs:217-229 | a match that has left check-in is not opened again or forfeited by any later pass, however long its deadline has passed |
| CheckInProgress.IsASchedule | crates/portal-api/src/background/mod.rs:172-229 | the pass and everyone else together are a schedule of the actions of CheckIn |
| CheckInSweep.Lifecycle.OpenCheckInWindow | crates/portal-api/src/background/mod.rs:351-402 | deadline first, then status, for each way the writes can fail |
| CheckInSweep.Lifecycle.RepairCheckInDeadline | crates/portal-api/src/background/mod.rs:417-442 | stamps the missing deadline and nothing else |
| CheckInSweep.Lifecycle.ProcessCheckInTimeout | crates/portal-api/src/background/mod.rs:913-969 | settles exactly if somebody was absent when listed and the row can still be settled so: nobody in, cancelled; one absent, forfeited with that side as the loser and the other participant of the row as the winner |
| CheckInSweep.Lifecycle.RunPass | crates/portal-api/src/background/mod.rs:172-229 | each match ends as its own pass says or is left out by the batch limit; within the limit none is left out |
| VetoGate.PassWaitsForPickBan | crates/portal-api/src/background/mod.rs:547-585 | over any schedule, stale and forced writes of the match's status included, a session the pass started is of a match that has been in pick/ban and, unless such a write put it back, is not before it |
| VetoGate.NeverActsShielded | crates/portal-api/src/background/mod.rs:1010-1031 | over any schedule in which the match stays over or in check-in, a pass that acts for a captain had looked at it before |
| VetoGate.CancelledForGoodExactly | crates/portal-domain/src/services/tournament/veto.rs:334-435 | the cancelled session of a match that stays over stays cancelled whatever anyone does, if and only if no pass, captain or hook is between its look and its write or between its action and the decider that follows |
| VetoGate.Revives | crates/portal-domain/src/services/tournament/veto.rs:399-435 | for every such caller, the run in which the session leaves cancelled |
| VetoGate.NextPassCancels | crates/portal-api/src/background/mod.rs:1023-1031 | a running session of a dead match is cancelled by the next pass that finds its turn over, and with nobody else under way for good |
| VetoGate.ChainActsOut | crates/portal-domain/src/services/tournament/veto.rs:399-435 | undisturbed, the chain performs every decider that follows and no other action |
| VetoGate.WinnerPlays | crates/portal-api/src/background/mod.rs:586-633 | over every run the winner of the coin, tossed by the pass or by others that name players, is one of the two sides |
| VetoGate.PhasesTrue | crates/portal-domain/src/services/tournament/veto.rs:864-900 | over every run a running session has an action to come, a completed one none, and one with none is completed, cancelled, or a coin put up again too late |
| VetoGate.LateStartUndoes | crates/portal-domain/src/services/tournament/veto.rs:864-900 | the run of two starters in which a completed veto waits for a coin |
| VetoGate.DoneForGoodExactly | crates/portal-domain/src/services/tournament/veto.rs:864-900 | a completed veto stays completed, and one completed or cancelled stays so, whatever anyone does, if and only if no caller is between its read of the session and a write that says otherwise |
| VetoGate.PassesComplete | crates/portal-api/src/background/mod.rs:1005-1050 | if no captain ever acts the pass completes the veto after at most as many turns as there are actions left |
| VetoGate.QuietUntilPickBan | crates/portal-api/src/background/mod.rs:458-530 | before pick/ban no coin waits and no clock runs over every schedule of passes in which the match is not put back, if and only if no other caller is on its way to start, flip or act, a following decider included |
| VetoGate.EarlyStartIsFlipped | crates/portal-api/src/background/mod.rs:586-633 | a session others started early is flipped during check-in, and its turns are not acted on there |
| VetoGate.ReopenedVetoIsActedOn | crates/portal-domain/src/services/tournament/scheduling.rs:216-227 | an accepted proposal puts a match in pick/ban back to scheduled and the pass acts on its running veto |
| VetoGate.VetoDesk.EnsureVetoSession | crates/portal-api/src/background/mod.rs:458-530 | creates, never starts, exactly when a format and both participants are there and no session is |
| VetoGate.VetoDesk.StartPending | crates/portal-api/src/background/mod.rs:547-585 | a pending session is started exactly in pick/ban: a wheel runs from its first action without a turn, any other waits for its coin |
| VetoGate.VetoDesk.FlipForgotten | crates/portal-api/src/background/mod.rs:586-633 | a coin is flipped exactly when nobody has won it, the grace since the start is over and the match is neither over nor lacks a side; the veto then runs from its first action with the first turn on the clock |
| VetoGate.VetoDesk.AdvanceStalled | crates/portal-api/src/background/mod.rs:539-633 | what becomes of every listed session and of no other, and that no quiet session before pick/ban moves |
| VetoGate.VetoDesk.ProcessVetoTimeout | crates/portal-api/src/background/mod.rs:1005-1050 | the whole caller for a timed-out session, the deciders that follow included: it acts unless the match is in check-in or over; then exactly the following deciders are acted out, the veto is completed if and only if no action is left, and otherwise it runs on with the given deadline; the session of a dead match is cancelled |
| SagaRedrive.ExecutionsBounded | crates/portal-api/src/background/mod.rs:696-812 | over every schedule of passes, owners, other completions and deaths, the executions of a row are at most max_retries plus the lost and pending writes and the retries that a write put back, less those used up unexecuted: the ledger balances exactly |
| SagaRedrive.RetryBoundExactly | crates/portal-db/src/adapters/saga.rs:209-233 | over every lossless schedule of passes, other completions and the row's owner, at most max_retries executions, if and only if the owner is gone |
| SagaRedrive.OwnerPutsBack | crates/portal-domain/src/entities/saga.rs:142-156 | with the owner alive, the run that executes the row once more than that, no write lost |
| SagaRedrive.NoSilentGiveUp | crates/portal-db/src/adapters/saga.rs:73-111 | over every schedule of other completions and of passes that do not die, lost writes included, the row never leaves the pool without a trace, if and only if it is not live |
| SagaRedrive.SupersededInSilence | crates/portal-db/src/adapters/saga.rs:85-110 | for a live row, executed or not, the run in which another completion retires it in silence |
| SagaRedrive.NoSilentGiveUpAlone | crates/portal-db/src/adapters/saga.rs:73-111 | with no other completion of the match, if and only if it is not a live row with executions and retries to spare, which its own re-drive retires |
| SagaRedrive.RetiredInSilence | crates/portal-db/src/adapters/saga.rs:73-111 | for such a row, the run that gives it up in silence |
| SagaRedrive.NoSilentDeath | crates/portal-api/src/background/mod.rs:795-811 | with passes that may die too, if and only if the row is neither live nor ever executed |
| SagaRedrive.DiesBeforeReport | crates/portal-api/src/background/mod.rs:795-811 | for any other row on its last retry, the run that gives it up in silence |
| SagaRedrive.AttemptsRunOut | crates/portal-domain/src/services/tournament/saga.rs:323-342 | an undisturbed attempt whose write lands leaves strictly fewer retries, the retirement on its way notwithstanding; one that did not fail leaves none and no live row |
| SagaRedrive.AttemptedExactly | crates/portal-api/src/background/mod.rs:721-811 | the row, its executions, and the one trace an attempt leaves, by the copy it was listed with, the answer it got and whether its write landed |
| SagaRedrive.AppliedNeverExecutes | crates/portal-api/src/background/mod.rs:750-773 | once the history records applied standings, no schedule whatever executes the row again, if and only if no older copy is left with its owner or with a candidate under way |
| SagaRedrive.SlowOwnerLosesItsRecord | crates/portal-db/src/adapters/saga.rs:209-233 | a run in which a slow owner's record is overwritten and the row is executed again |
| SagaRedrive.SagaSweep.ExecuteCompletion | crates/portal-db/src/adapters/saga.rs:178-207 | a fresh execution retires a stale live row and fails on one that is not stale |
| SagaRedrive.SagaSweep.RedriveOne | crates/portal-api/src/background/mod.rs:721-811 | row, ledger, traces and both counters of the summary after one candidate, its retirement included |
| SagaRedrive.SagaSweep.RedrivePass | crates/portal-api/src/background/mod.rs:696-812 | every listed row has its attempt, no other changes, the ledgers balance, remaining retries strictly fall where writes land, and the summary counts the successes |
| DirectoryWalk.Walk | crates/portal-api/src/adapters/evidence_storage.rs:101-126 | the stack walk ends and collects exactly the files under the prefix, with their multiplicity |
| DirectoryWalk.FilesExactly | crates/portal-api/src/adapters/evidence_storage.rs:101-126 | a key is found exactly if it has the prefix and a route of directory names leads to a file with it, at any depth |
| DirectoryWalk.EntryOrderIrrelevant | crates/portal-api/src/adapters/evidence_storage.rs:103-110 | the order of entries does not matter, at any level of the tree |
| DirectoryWalk.PrefixFilters | crates/portal-api/src/adapters/evidence_storage.rs:116-119 | the prefix keeps or drops a key and changes no multiplicity |
| DirectoryWalk.KeysDistinct | crates/portal-api/src/adapters/evidence_storage.rs:113-116 | with plain, distinct names each key is found once |
| DirectoryWalk.BackslashCollides | crates/portal-api/src/adapters/evidence_storage.rs:116-116 | with a backslash in a name two files share a key |
| KeyRollUp.RollUp | crates/portal-api/src/adapters/evidence_storage.rs:127-147 | objects in order; common prefixes strictly increasing, hence distinct, and exactly the folders of the keys |
| KeyRollUp.Partition | crates/portal-api/src/adapters/evidence_storage.rs:130-147 | a key is listed itself, as often as it occurs, or lies under exactly one common prefix |
| KeyRollUp.FolderIsShortest | crates/portal-api/src/adapters/evidence_storage.rs:133-138 | the folder is the shortest beginning that ends in a delimiter past the prefix |
| KeyRollUp.FoldersOrdered | crates/portal-api/src/adapters/evidence_storage.rs:127-142 | keys in order have folders in order |
| KeyRollUp.FolderContiguous | crates/portal-api/src/adapters/evidence_storage.rs:127-142 | in sorted keys the members of a folder stand together |
| ObjectPages.ListObjects | crates/portal-storage/src/s3.rs:440-480 | over any page source that ends, the walker ends and returns all pages in order |
| ObjectPages.ListDemoFiles | crates/portal-scanner/src/s3_scanner.rs:23-67 | the same, keeping the wanted objects |
| ObjectPages.KeepExactly | crates/portal-scanner/src/s3_scanner.rs:23-67 | what is kept is what is wanted, as often as it is there |
| ObjectPages.PageOf | crates/portal-api/src/adapters/evidence_storage.rs:149-161 | the page from the first occurrence of the cursor or, for an unknown one, from the start; as many objects as asked for within one and a thousand while there are more, never none unless the listing is empty |
| ObjectPages.PagingIsCompleteExactly | crates/portal-api/src/adapters/evidence_storage.rs:149-161 | following the cursors ends and shows the whole list in order if and only if every page boundary is the first of its key |
| ObjectPages.WalkIsAligned | crates/portal-api/src/adapters/evidence_storage.rs:149-161 | it then visits the aligned pages, as many as rounding up gives and at least one |
| ObjectPages.LocalPagesAnswer | crates/portal-api/src/adapters/evidence_storage.rs:149-161 | the local backend is a page source the walkers can follow |
| ObjectPages.RepeatedKeyNeverEnds | crates/portal-api/src/adapters/evidence_storage.rs:149-151 | two objects with one key, one to a page: the walk never ends |
| LocalStorage.ListObjectsPage | crates/portal-api/src/adapters/evidence_storage.rs:88-162 | walk, sort, roll-up and cut together; a missing bucket lists nothing |
| LocalStorage.ListingIsUnique | crates/portal-api/src/adapters/evidence_storage.rs:127-127 | whatever order the walk found the keys in, the sorted listing is the same |
| LocalStorage.LocalListingIsWhole | crates/portal-api/src/adapters/evidence_storage.rs:88-162 | in a tree of plain names, for any prefix, delimiter and page size, the pages are the whole list of objects |
| Findings.FindingsConserved | crates/portal-api/src/adapters/demo_validator.rs:351-484 | the findings handed on are, as a multiset, those of the claimed links' players and all lineup violations |
| Findings.OnePerPlayer | crates/portal-api/src/adapters/demo_validator.rs:107-140 | a link's ringers and side-unassigned players are its players' findings, at most one each |
| Findings.ReviewRaisedExactly | crates/portal-domain/src/services/tournament/result_review.rs:47-63 | a review is raised exactly on some finding or some claimed link's score mismatch, and carries all findings |
| Findings.OutcomesExactly | crates/portal-api/src/adapters/demo_validator.rs:351-450 | an outcome for exactly the claimed links with a mismatch, without metadata, or with a finding |
| Findings.ValidateMatchDemos | crates/portal-api/src/adapters/demo_validator.rs:313-484 | the outcome of every claimed link with an issue or a finding, the lineup violations on the first or, without one, on the first link; nothing when the claim or the match has no demo |
| Findings.SidelessRegistered | crates/portal-api/src/adapters/demo_validator.rs:107-140 | registered players in no demo lineup, and nobody when there is no such lineup |
| Findings.UnrecognizedFromPlayers | crates/portal-api/src/adapters/demo_validator.rs:512-536 | the players without an account, with the side the demo names |
| Findings.CreateFromOutcomes | crates/portal-api/src/adapters/review_creator.rs:28-79 | one review with all findings, anchored to the first outcome, or none when there is nothing to review |
| LineupRules.CheckRegistrationLineup | crates/portal-api/src/adapters/demo_validator.rs:207-308 | the violations of a side, in order, onto those found before |
| LineupRules.LineupViolations | crates/portal-api/src/adapters/demo_validator.rs:150-203 | both sides, each faced with the other's roster |
| LineupRules.PlayedAreTheDemoPlayers | crates/portal-api/src/adapters/demo_validator.rs:231-248 | the counts of the majority rule count each demo player once |
| LineupRules.SubstituteByFirstRow | crates/portal-api/src/adapters/demo_validator.rs:231-248 | a player counts as substitute exactly when its first demo row says so |
| LineupRules.RulesFireExactly | crates/portal-api/src/adapters/demo_validator.rs:256-306 | each of the three rules fires exactly when broken, on the side checked and with its counts, and nothing else is found |
| LineupRules.FacedWithTheOther | crates/portal-api/src/adapters/demo_validator.rs:150-203 | a player is reported for playing against its own team, on the side played for, exactly when the other slot's roster has it |
| ClaimedId.RoundTrip | crates/portal-api/src/steam_openid.rs:215-222 | prefix, decimal of any number below 2^63 and any number of slashes parse to the number |
| ClaimedId.AcceptedExactly | crates/portal-api/src/steam_openid.rs:215-222 | accepted with a value if and only if prefix, digits of that value below 2^63, slashes |
| ClaimedId.ParseFromIsValue | crates/portal-api/src/steam_openid.rs:221-221 | giving up at the first overflow is the same as comparing the whole number |
| MatchLifecycle.EnteredFromExactly | crates/portal-core/src/types/tournament.rs:458-530 | the transition table read by its targets agrees with the guards: cancelled exactly before play, forfeited exactly when it can be, left exactly while not over |

## Left out

- ReservationHandlers.Dispatcher.MaintenancePass: the pass lists its reservations up front and other handlers may run in between; here each handler of the cycle is one step and the listing is current.
- Reservations.DoWent: a server status write that fails after the reservation's has landed is not modelled.
- Reservations.Candidates: heartbeats, bookings, draining and other server states besides available, reserved, loading, in match and broken are part of the parameter `eligible`.
- ReservationHandlers.Dispatcher.SendLoad: the config token, the end-match command sent first and failures of the reservation's own writes are not modelled.
- ServerEvents.EventStore.Process: the scores, the result claim and the demo that processing records are not modelled, only the reservation's status.
- SubstitutionHandlers.MatchRosters.ApplySubstitution: what several reservations of one match store, the lineup rows and backup restore are not modelled.
- Substitutions.OrderlyRunStaysSynced: conditional, because approved and parked rows are not validated again when they are applied.
- SagaRedrive.ExecutionsBounded: per row; each re-drive opens a fresh execution record and the saga body is not modelled, so nothing is said across rows.
- SagaRedrive.DoBegin: what other rows of the match do to `create` is part of the outcome, and what it does to them is `Supersede` on their side; the fresh row itself is followed only as a row of its own.
- SagaRedrive.OwnerFailsStep: a failed step ends the owner's run, so it fails at most one.
- CheckIn.DoEnter: the check-in of a participant is its status write and the record of it; who may check in is not modelled, nor are the forfeits of withdrawal and disqualification.
- CheckInSweep.Lifecycle.RunPass: which rows the batch limit leaves out is any choice; the order by time is not used.
- VetoGate.Acted: the map an action takes, the order of turns and a pool run dry are not modelled here; the wheel modules follow the session's maps.
- Findings.Validated: the confidence, a floating-point number, is not modelled; case folding of map names is a parameter.
- LineupRules.Violations: what the eligibility service says about a lineup is a parameter.
- ObjectPages.ListDemoFiles: which keys name a demo is a parameter.
- DirectoryWalk.Walk: the tree is finite and readable; symbolic links and read errors are not modelled, nor sizes and modification times.
- PugHandlers.Lobby.CreateContainer: the creation of teams, tournament and match is one step that yields a fresh match or fails.
- WheelHandlers.VetoTables.SpinWheel: sides, broadcasts and the check on who may spin are not modelled.
- RefreshHandlers.TokenService.Refresh: tokens are opaque identifiers; hashing, signing and cookies are not modelled, and a database error ends a handler where a crash would.
- The extraction of a persona name from a profile document, proposal expiry, the evidence sweep and automatic confirmation of claims: easy members only.
- HTTP handlers, permissions, metrics and configuration: no hard property.
