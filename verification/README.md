# BananaTalk: matchmaking, moderation and signaling, verified

BananaTalk pairs strangers for video calls. Go backends share a waiting queue in Redis, keep users,
reports and blocks in Postgres, and relay WebRTC signaling between two Flutter clients. This project
models that logic in Dafny and proves what it keeps over whole runs. `dafny verify dfyconfig.toml`
checks everything.

## How the model is laid out

Code that updates state is a class whose methods are proved against functions on values; what the system
promises is then proved about those functions and about runs, which are arbitrary sequences of events
(an event that is not enabled changes nothing).

| file | what it holds |
|---|---|
| `Ids`, `Options`, `Sequences` | user IDs and their order, `Option`, shared facts on sequences and multisets |
| `Store`, `MatchMaker` | the Redis keys and the commands sent to them; the matchmaker object with the real `processMatches` loop |
| `MatchCycle`, `Rotation` | `processMatches` as a pure drain with failing commands; progress under rejection |
| `QueueProtocol`, `QueueFates`, `WaitTimes`, `Sessions` | any number of backend instances and connection handlers, one Redis command a step, with a ticket per `Add`; what becomes of each ticket, wait times and session keys at that granularity |
| `Accounts`, `ReportTransactions`, `ReportRuns` | the sliding-window ban; concurrent report transactions under Read Committed with row locks; what they leave, read off the events |
| `Database`, `Backend`, `BackendSafety`, `BackendHistory`, `Handlers` | the tables, the handlers as steps of one pod, what every run keeps, the state read off the events, and the handlers as code |
| `BanWindow`, `AutoBan`, `ConnectRaces`, `ConnectPaths` | bans that hit queued users; the sliding window over whole runs; connecting users against blocks and bans, one command a step, and where each connection is, read off the steps |
| `RateLimiter` | the per-IP token bucket with garbage collection |
| `Pagination` | the admin report list |
| `Handshake`, `HandshakeDelivery`, `HandshakeRoles`, `HandshakeSafety` | clients and the relay, from `init` to the applied answer: deliveries and roles in every run, and what holds of a pair |
| `Signaling`, `IceBuffering`, `Endpoints` | one client's async handlers, its ICE candidate buffer, and the handlers as code |

## What turned out not to hold

Each of these is kept in the model as the code has it, with a concrete run and the exact condition.

- The matchmaker ignores a block when neither side holds a block key. `HydrateBlocks` leaves no key for an
  empty list and `AddBlock` does nothing without a key, so two online users who never blocked anybody are
  matched right after one blocks the other (`BlockIgnoredWithoutKeys`). Exactly: a pair is rejected iff it
  is blocked in the database and one side has a key (`CheckIsDatabaseWhereKeyed`). The comment at
  backend/matchmaker.go:141-145 takes "no key" to mean "offline"; the code does not.
- Command by command a block key can also be wrong. A block that falls between the loading and the hydration
  of a list, and whose handler then finds no key, is missing from the key (`HydrationMissesBlock`); a key
  that expires between `EXISTS` and `SADD` comes back with one block only (`ExpiryMakesPartialKey`).
  Otherwise keys are always exact up to the `SADD`s still to come (`BlockKeysExactIff`).
- A banned user can be connected, queued and matched. Handlers ban in the database first and close the
  connection later, so a banned user stays open in between (`BannedAndStillOpen`); and a ban between the ban
  check and the registration finds nobody to disconnect (`BannedWhileConnecting`). No banned user is ever open
  iff no ban hits an open user and no banned user is registered (`NoBannedOpenIff`, `BannedBetweenIff`). One
  whom nobody is about to disconnect was registered after its ban had been followed up
  (`OverlookedIffLetIn`); it goes on to be queued, and no further ban can sever it, because that ban changes
  nothing (`OverlookedUntil`). A late close can also sever a user who has been unbanned
  (`LateCloseSeversUnbanned`).
- Even with atomic handlers, a ban only closes the socket, and the queue is left by the cleanup, so a user who
  is banned while queued can still be matched (`BannedWhileQueuedIsMatched`). There, no banned user is ever
  queued iff no ban hits a queued user (`NeverQueuedIffNoBanHitsQueue`), and no banned user is matched iff no
  turn matches one whom a ban caught in the queue (`NoBannedMatchIffNoneCaught`).
- A client can offer to a lower ID. The pod knows recipients by ID only, an offer overwrites `_remoteId`, and
  `_createOffer` reads it when it sends; so an offer to the earlier connection of a user who has come back
  turns that user's own offer around (`StaleOfferTurnsRolesAround`). Whatever order suspended handlers go on
  in, senders keep their roles iff no message names, while a handler is suspended, somebody to whom that
  handler must not send (`RolesKeptIffNothingRetargets`).
- A user who leaves while its match is being committed keeps a session key (`GoneKeepsSession`). A user who is
  gone has one exactly if a match set it after the cleanup (`SessionOfGoneIffLeftBehind`, `GoneHaveNoneIff`);
  none has if nobody's `LREM` runs while popped and nobody's cleanup ends during a commit
  (`GoneHaveNoneIfUndisturbed`).
- A user whose `LREM` runs while the user's entry is popped comes back with the re-queue, and can then be
  matched with itself after reconnecting (`ReturningUserMatchedWithSelf`). Nothing stale is ever queued or
  popped iff no `LREM` runs at such a moment (`AllLiveIffUndisturbed`).
- `Add` is two commands, and so is the reading and deleting of a pair's wait times. A match inside an `Add`
  leaves a wait time behind (`MatchedUserKeepsWaitTime`), and the pending `HDEL` of a match deletes the wait
  time of a user who left and came back (`ReturnedUserLosesWaitTime`). `WaitTimesExactIff` names the three
  kinds of steps without which wait times and latencies are always exact; with atomic handlers they always
  are (`StateReflectsHistory`). A pair lost by a failed re-queue keeps its wait times until it leaves.
- `findNextMatch` waits neither for suspended handlers nor for its own connection. If a handler still awaits
  `setRemoteDescription`, it later raises the flag of the next attempt; if an offer is handled before there
  is a connection, it creates one of its own, which is then replaced under a raised flag
  (`OfferBeforeConnectionHarms`). Either way candidates reach a connection without a description. If offers
  find a connection, the next attempt is safe iff no handler was suspended at `setRemoteDescription`
  (`NextAttemptIsSafeIffIdle`); `SafeIffReady` decides safety for every state whatever.
- A page number so large that its offset leaves 64 bits can show an earlier page again
  (`HugePageShowsFirstPage`); `PageIsEmptyIff` says exactly which pages are empty.
- backend/db.go:16-17 says that a threshold of 5 reports fires the ban. The code compares with `>`, so the
  sixth report inside 24 hours bans, and that is what is modelled.

## Model

| member | source | states |
|---|---|---|
| Ids.PrecedesIsAStrictChoice | frontend/lib/signaling.dart:134-144 | Glare prevention has a unique winner: of two distinct IDs exactly one is the lower, and no ID is lower than itself |
| Ids.PrecedesIffDecided | frontend/lib/signaling.dart:134-144 | The winner is the lower ID: one precedes another iff it is a proper prefix of it or has the smaller code unit at the first index at which they differ |
| Ids.PrecedesIsTransitive | frontend/lib/signaling.dart:134-144 | With the two rows around it, a strict total order on IDs |
| MatchMaking.MatchMaker.Add | backend/matchmaker.go:41-54 | The user joins the tail without de-duplication and the wait time is overwritten |
| MatchMaking.MatchMaker.Remove | backend/matchmaker.go:56-64 | Every entry of the user leaves the queue, all other entries stay with their multiplicity, and no wait time is kept |
| Sequences.KeepInOrder | backend/matchmaker.go:56-64 | The entries that a removal leaves keep their order: it works piece by piece |
| MatchMaking.MatchMaker.ObserveMatchLatency | backend/matchmaker.go:66-96 | One observation per ID with an entry and a non-negative wait, in order; none of the IDs keeps an entry |
| MatchMaking.MatchMaker.TryMatch | backend/matchmaker.go:98-120 | Two users leave the head together, or nothing happens because fewer than two wait; only the queue changes |
| MatchMaking.MatchMaker.HydrateBlocks | backend/matchmaker.go:122-140 | Membership afterwards is exactly the given list, an empty list leaves no key, and every other key is as before |
| MatchMaking.MatchMaker.AddBlock | backend/matchmaker.go:142-159 | The block is seen afterwards iff a key existed, no key is ever created, and every other membership is as before |
| MatchMaking.MatchMaker.ClearBlocks | backend/matchmaker.go:161-166 | The user blocks nobody in the cache afterwards, every other user's answers and everything else are as before |
| MatchMaking.MatchMaker.PairBlocked | backend/matchmaker.go:168-183 | Fails open: a pair is blocked iff a lookup that did not fail lists the other side, and without failures iff either side lists the other |
| MatchMaking.MatchMaker.SetSession | backend/matchmaker.go:185-190 | The user's session names the peer, every other session and everything else are as before |
| MatchMaking.MatchMaker.DeleteSession | backend/matchmaker.go:192-197 | The caller has no session, and everybody else's is as before: sessions need not stay symmetric |
| MatchMaking.MatchMaker.Commit | backend/matchmaker.go:250-263 | Latency observed, both sessions written and both sides notified of each other, in this order |
| MatchMaking.MatchMaker.ProcessMatches | backend/matchmaker.go:221-265 | The loop computes the functional drain of queue, blocks and rejection budget, whichever pops, checks and re-queues fail, and terminates |
| MatchCycle.DrainConserves | backend/matchmaker.go:221-265 | One call only moves users between queue, matches and the pair of a failed re-queue, with multiplicity |
| MatchCycle.DrainCounts | backend/matchmaker.go:25-28 | At most floor(n/2) + 32 pops a call; the queue shrinks by two per match or loss, so its parity is kept; blocks are untouched |
| MatchCycle.DrainStops | backend/matchmaker.go:223-248 | A call stops with fewer than two waiting below the budget, or with exactly 32 rejections and a pair waiting, or at a failed command |
| MatchCycle.DrainRespectsBlocks | backend/matchmaker.go:234-248 | Whoever is matched was not blocked either way, unless a lookup failed in that turn |
| MatchCycle.TurnedAwayWereListed | backend/matchmaker.go:234-248 | Nobody is turned away without need: a rejected pair was listed by a lookup that did not fail in its turn, and it is re-queued, except that the last one of a call is lost iff its re-queue failed |
| MatchCycle.DrainStopsAtFailedPop | backend/matchmaker.go:222-248 | No pop of a call failed before the one it stops at, and a failed pop ends it |
| MatchCycle.DrainAnnounces | backend/matchmaker.go:250-263 | Sessions and notifications after a call are exactly those of its matches, both ways, in match order |
| MatchCycle.PairedIsInvolution | backend/matchmaker.go:253-254 | If nobody is matched twice, the written sessions pair users off symmetrically and nobody with itself |
| MatchCycle.DrainAccountsFor | backend/matchmaker.go:221-265 | Each queued user's entries are, one for one, matched, still queued or lost |
| MatchCycle.DrainPairsOff | backend/matchmaker.go:221-265 | From a duplicate-free queue: sessions gain a fixed-point-free involution on exactly the matched users, others are unchanged, and matched, queued and lost are disjoint and complete |
| MatchCycle.DuplicateIsPairedWithItself | backend/matchmaker.go:44 | Without de-duplication a user queued twice is matched with itself |
| MatchCycle.DrainIsRounds | backend/matchmaker.go:222-265 | A whole call equals its turns run one by one, one for each successful pop and whichever lookups and re-queues fail |
| Rotation.RejectionRotates | backend/matchmaker.go:237-242 | Re-queueing the head pair at the tail turns the queue by two |
| Rotation.Spin | backend/matchmaker.go:234-247 | After m straight rejections the head pair is (q[2m mod n], q[(2m+1) mod n]), and nothing else has changed |
| Rotation.FruitlessCall | backend/matchmaker.go:243-246 | 32 blocked head pairs: the call matches nobody and leaves the queue turned by 64 |
| Rotation.FruitfulCall | backend/matchmaker.go:234-250 | The first open head pair within budget is the first pair matched |
| Rotation.MatchesIffHeadOpens | backend/matchmaker.go:221-265 | Any number of calls forms a match iff one of their first 32-per-call head pairs is open |
| Rotation.OddQueueProgress | backend/matchmaker.go:25-28 | Odd n >= 3, nobody joining: a match within ceil(n/32) calls iff some cyclically adjacent pair is unblocked, otherwise never |
| Rotation.EvenQueueProgress | backend/matchmaker.go:237-238 | Even n: a match within ceil(n/64) calls iff some aligned pair is unblocked, otherwise never, so a new candidate really is needed |
| QueueProtocol.TicketsAreConserved | backend/matchmaker.go:41-64 | Every interleaving of any number of instances with connecting and leaving users: each enqueue is in exactly one place, once, and never matched twice |
| QueueProtocol.StaleIffGhost | backend/main.go:249-263 | A queued or popped entry belongs to its owner's present connection iff it was not in flight when that connection was removed |
| QueueProtocol.AllLiveIffUndisturbed | backend/matchmaker.go:239 | The queue and the popped pairs never hold anybody stale iff no removal ever runs between a pop and its re-queue or commit |
| QueueProtocol.UndisturbedRunsAreOrderly | backend/matchmaker.go:221-265 | In such runs nobody is queued twice, only present users are queued, and nobody is matched with itself |
| QueueProtocol.GhostComesBack | backend/matchmaker.go:237-242 | A run in which a user who left while popped is pushed back |
| QueueProtocol.ReturningUserMatchedWithSelf | backend/matchmaker.go:221-265 | A run in which such a user reconnects and is matched with itself |
| QueueFates.FateOfTicket | backend/matchmaker.go:41-64 | In every interleaving, read off the commands: a ticket is issued by each RPUSH of a registered user and nothing else, matched iff the second lookup of its pair said no, lost iff the re-queue of its pair failed, removed iff it was queued at its owner's LREM |
| QueueFates.PhaseIsWhatLookupsSaid | backend/matchmaker.go:168-183 | In every interleaving an instance is about to re-queue its pair iff one of its lookups said yes, and about to make the second lookup iff the first said no |
| QueueFates.PopAndRequeue | backend/matchmaker.go:98-120 | A pop takes the two oldest entries, in order, and a rejected pair goes back to the tail in its order |
| QueueFates.JoiningQueues | backend/matchmaker.go:41-54 | After any run a user who connects is at the tail, once more, with its own time and under a ticket of its own |
| QueueFates.LeavingCleansUp | backend/main.go:248-263 | After any run a user who leaves ends with no connection, no entry in the queue and no wait time, and all others keep theirs |
| WaitTimes.WaitTimesExactIff | backend/matchmaker.go:41-96 | Command by command, wait times in the hash and latencies read from it are always those of the user's own pending Add, iff no HSET comes after its match's HDEL, no HMGET comes before a side's HSET or after its cleanup, and no HDEL comes after a side's next HSET |
| WaitTimes.MatchedUserKeepsWaitTime | backend/matchmaker.go:43-50 | A run in which a match between the two commands of Add reads no time for one side and leaves one behind |
| WaitTimes.ReturnedUserLosesWaitTime | backend/matchmaker.go:78-95 | A run in which the HDEL of a match deletes the wait time of a matched user's next Add |
| Sessions.SessionOfGoneIffLeftBehind | backend/main.go:256-258 | Command by command, a user whose last connection has cleaned up has a session key exactly if a match set it after that |
| Sessions.GoneHaveNoneIff | backend/matchmaker.go:185-197 | Users who are gone never have a session key iff no match ever sets one for a user who is gone |
| Sessions.GoneHaveNoneIfUndisturbed | backend/matchmaker.go:250-254 | That is so if no LREM runs while the user's entry is popped and no cleanup ends while a match of the user is being committed |
| Sessions.BothSidesAreSet | backend/matchmaker.go:250-254 | After any run, an instance that finishes a match makes each side's session name the other, a connection that finishes its cleanup has none, and nobody else's changes |
| Sessions.GoneKeepsSession | backend/matchmaker.go:250-254 | A run in which a user leaves while its match is being committed and keeps a session key |
| Accounts.BannedIffSixWithinADay | backend/db.go:16-21 | With a monotone clock and no admin, a user is banned iff some six consecutive reports span at most 24 hours |
| Accounts.BansOnFirstClosingReport | backend/db.go:170-193 | The call that answers banned is exactly the first report that closes such a six |
| AutoBan.BannedInRunIffSixWithinADay | backend/db.go:133-194 | The same over every run of connects, disconnects, reports, blocks and matches: banned iff some six consecutive recorded reports span at most 24 hours |
| AutoBan.BannedOnceByFirstClosingReport | backend/db.go:179-193 | Of all events of such a run exactly the report that closes the first such six bans the user |
| ReportTransactions.Serialisable | backend/db.go:133-194 | Every interleaving of report transactions, bans and unbans ends in the accounts, and gives every answer, of running them in commit order |
| ReportRuns.LogIsWhatCommitted | backend/db.go:137-194 | That order is the commits themselves: in every run the log is, one for one, the commits of decided transactions, with user, times and answer, and the bans and unbans that did not wait |
| ReportRuns.OpenSinceBegin | backend/db.go:137-143 | In every run a transaction is open exactly from its begin to its commit or abort, and keeps the user and the time of its begin |
| ReportRuns.UndisturbedReportIsFiled | backend/db.go:137-194 | After any run, a transaction on an unlocked row that runs through files exactly its report, with one row, one more on the counter, the ban and the answer the window asks for, and nobody else's account or lock changed |
| ReportRuns.AbortLeavesNothing | backend/db.go:137-143 | An abort leaves no row, no counter and no lock of its transaction, and every other transaction as it was |
| ReportTransactions.CountSeesEarlierLockHolders | backend/db.go:163-177 | Because the counter UPDATE comes first, each COUNT is the in-window reports of earlier lock holders plus its own |
| ReportTransactions.SixthInLockOrderBans | backend/db.go:179-188 | In lock order the sixth in-window report bans unless already banned, and none below six does |
| ReportTransactions.OneBanBetweenUnbans | backend/db.go:179-193 | At most one call is told that it banned a user between two unbans |
| ReportTransactions.BanTransitionsBalance | backend/db.go:305-327 | Answers "banned" minus answers "unbanned" is 1 for a banned user and 0 otherwise, under concurrency |
| ReportTransactions.CounterCountsRows | backend/db.go:163-168 | Concurrent increments are never lost: the counter is the number of committed report rows |
| Database.RecordReportFiles | backend/db.go:137-194 | The transaction files the report on the reported account, answers as the window rule says, blocks both ways and touches no other account |
| Database.BlocksOfIsSubBlocked | backend/db.go:348-374 | The loaded list is exactly the users in a block with the caller, whichever side blocked; blocks are symmetric and never reflexive |
| Database.UpsertConsistent | backend/db.go:83-100 | An upsert keeps keys, foreign keys and counters consistent and leaves existing rows alone |
| Database.RecordReportConsistent | backend/db.go:137-194 | So does a report, whose block rows stay symmetric |
| Database.DB.UpsertUser | backend/db.go:83-100 | Returns the user's one ID, new iff the user was unknown; a new user gets a clean row and nobody else's row, no report and no block changes |
| Database.DB.GetUserIDByGoogleSub | backend/db.go:102-114 | The ID of the one row with this sub, or no rows iff there is none |
| Database.DB.IsUserBanned | backend/db.go:116-131 | Banned iff the user exists with a ban on the account; an unknown user is not banned |
| Database.DB.RecordReport | backend/db.go:137-194 | All or nothing: a violated constraint leaves no trace, otherwise one row, one count, both block directions, and account, ban time and answer as the sliding-window rule says |
| Database.DB.InsertBlock | backend/db.go:329-346 | Both directions are written, or nothing for a self-block or an unknown user |
| Database.DB.LoadUserBlocks | backend/db.go:348-374 | Exactly the users blocked with the caller |
| Database.DB.BanUser | backend/db.go:302-327 | Afterwards the user is banned and no other account has changed; answers changed iff the user was not banned, no rows iff there is no user; an existing ban keeps its time |
| Database.DB.UnbanUser | backend/db.go:376-398 | Afterwards the user is not banned and no other account has changed; answers changed iff the user was banned, no rows iff there is no user |
| BackendSafety.StepBecomes | backend/main.go:202-295 | Of all handlers only reports and blocks add blocks, exactly for their pair, and only users logged as banned or unbanned change, each from the opposite state |
| BackendSafety.BlockKeysEqualDatabase | backend/matchmaker.go:122-166 | Over every run with key expiry: a block key that exists equals the user's database list, and the relation is symmetric and irreflexive |
| BackendSafety.CheckIsDatabaseWhereKeyed | backend/matchmaker.go:168-183 | In every reachable state a pair is rejected iff it is blocked in the database and one side has a key |
| BackendSafety.BlockIgnoredWithoutKeys | backend/matchmaker.go:142-155 | A run that matches two users after one blocked the other, neither having a key |
| BackendSafety.StateReflectsHistory | backend/main.go:248-295 | Over every run: the queue holds once exactly those who joined and since neither matched, left nor were lost; wait times are those of their last Add; each session names the partner of the last match since the last disconnect |
| BackendSafety.SecondConnectionMatchesItself | backend/main.go:243-295 | Two live connections of one user queue it twice and match it with itself, so one connection per user is needed |
| BackendSafety.LatenciesReflectHistory | backend/matchmaker.go:66-96 | Over every run the histogram holds, per match and in order, match time minus each side's own Add, whatever was rejected in between |
| BackendSafety.BannedUsersAreOut | backend/main.go:210-221 | With atomic handlers no banned user has an open connection, and one is queued only while a severed connection awaits its cleanup |
| BanWindow.QueuedWhileBannedIffCaught | backend/main.go:249-258 | In every run a banned user is queued iff the ban hit it while queued and it has since been neither unbanned nor taken out |
| BanWindow.NeverQueuedIffNoBanHitsQueue | backend/admin.go:204-207 | No banned user is queued at any moment of a run iff no ban of the run hits a user who is queued at that moment |
| BanWindow.NoBannedMatchIffNoneCaught | backend/report.go:136-144 | No match of a run has a banned side iff no turn matches a user whom a ban caught in the queue |
| BanWindow.NoHitNoBannedMatch | backend/matchmaker.go:221-265 | A run whose bans hit no queued user never matches a banned one |
| BanWindow.BannedWhileQueuedIsMatched | backend/admin.go:252-260 | A run in which a user is banned while queued, and its partner is given a session with it |
| ConnectRaces.NoBannedOpenIff | backend/report.go:122-144 | Command by command, no banned user is in clients with an open connection at any moment of a run iff no ban hits a user who is open at that moment and no user is registered who is banned by then |
| ConnectRaces.OverlookedIffLetIn | backend/admin.go:194-207 | In every run a banned user is open with no close to come exactly if it was registered while banned, after every close owed to it had run, and has been neither unbanned nor disconnected since |
| ConnectRaces.OverlookedUntil | backend/db.go:305-327 | Only an unban or a disconnect ends that: a further ban changes nothing |
| ConnectRaces.BannedAndStillOpen | backend/report.go:122-144 | A run that never registers a banned user, in which one is banned and open |
| ConnectRaces.LateCloseSeversUnbanned | backend/admin.go:252-260 | A run in which the late close of a lifted ban severs the user's next connection |
| ConnectRaces.BannedBetweenIff | backend/main.go:210-245 | A user between its ban check and its registration is banned iff a ban came in between and was not lifted |
| ConnectRaces.BannedWhileConnecting | backend/main.go:210-245 | A run that connects a user banned in between, with no close to come |
| ConnectRaces.BlockKeysExactIff | backend/main.go:223-231 | Command by command, every block key is the user's list in the database up to the SADDs still to come, iff no list is hydrated that a finished look for the key fell behind, and no SADD recreates a vanished key of a user with other blocks |
| ConnectRaces.HydratesStaleIff | backend/main.go:227-231 | In every run a hydration misses a block exactly if the block came after the list was loaded and its AddBlock is over by then |
| ConnectRaces.KeyGoneIff | backend/matchmaker.go:146-158 | In every run an SADD finds its key gone exactly if the key expired, was deleted or was hydrated empty since the EXISTS, and has not been made again |
| ConnectRaces.QuietKeysAreLists | backend/matchmaker.go:142-159 | When no AddBlock is pending, an exact key is exactly the database list |
| ConnectRaces.HydrationMissesBlock | backend/main.go:227-231 | A run that leaves a key without a block, nothing pending |
| ConnectRaces.ExpiryMakesPartialKey | backend/matchmaker.go:146-158 | A run in which an SADD brings an expired key back with one block only |
| ConnectPaths.ConnectionIsItsHistory | backend/main.go:202-295 | Command by command, in every run: a user has a connection iff it started one that has neither failed nor been cleaned up since, and it is open, severed or leaving iff the last of its registration, the closing and the disconnect was that |
| ConnectPaths.ConnectionGetsThrough | backend/main.go:202-245 | After any run, a user who is not banned and connects undisturbed is open under a key that is its list in the database, or under none if that is empty, and nothing else changes |
| ConnectPaths.UnloadedGetsThrough | backend/main.go:223-231 | A list that cannot be loaded keeps nobody out and leaves the key as it was |
| ConnectPaths.DepartureCleansUp | backend/main.go:248-263 | After any run, an open or severed user who disconnects ends with no connection and no key, and nothing else changes |
| BackendSafety.UnchangedBanHasNobodyToDisconnect | backend/admin.go:204-207 | Disconnecting only when the ban changed state is enough: an already banned user has no open connection |
| BackendSafety.MatchesAreSound | backend/matchmaker.go:234-263 | Every match of every run: two different users, not blocked in the database while either had a key, and nobody banned with an open connection |
| BackendSafety.ModerationBooksBalance | backend/db.go:144-193 | Over every run each report counter is the number of report rows, and ban minus unban transitions is 1 iff banned |
| BackendHistory.BlockedIffParted | backend/db.go:153-161 | Over every run two users are blocked in the database iff one ever blocked the other or had a report on it recorded |
| BackendHistory.KeyIffHydrated | backend/main.go:223-231 | Over every run a user has a block key iff the last list loaded for it, on a connect past the ban check, was not empty, and neither a cleanup nor an expiry came since |
| BackendHistory.BlockedPairIsNotMatched | backend/main.go:223-231 | After any run: a user who connects with its list loaded is not matched, first or second, with anybody blocked by then, in any run in which it stays connected and its key does not expire |
| BackendHistory.HistoryIsCalledFor | backend/main.go:202-295 | Over every run the joins, departures, matches, losses, bans and unbans are, in order, those that the events call for |
| BackendHistory.ConnectedIffServed | backend/main.go:233-258 | Over every run the users in clients are exactly those served and not disconnected since, and the open ones those not banned since either |
| BackendHistory.BannedIffBanStands | backend/admin.go:192-234 | Over every run a user is banned iff the last ban, by an admin or by the report that closes six in a day, was not followed by an unban |
| Handlers.Server.HandleConnections | backend/main.go:202-295 | Connects and queues exactly an admitted user whose upgrade and init succeed; with a loaded list the block key then answers exactly as the database; a ban, a database error, an upgrade or an init that fails leave the user out of clients, and a failed init cleans up; a failed block load only skips hydration |
| Handlers.Server.Cleanup | backend/main.go:248-263 | Afterwards the user is not connected, queued, in a session or keyed, and the peer's session is left |
| Handlers.Server.UserIDOrStub | backend/report.go:94-106 | A user who never connected gets a stub row, a known one is not upserted |
| Handlers.Server.ReportHandler | backend/report.go:63-160 | Refuses exactly self-reports; a failed upload records nothing; a report is created iff it is of somebody else and the upload succeeds, and then it is recorded, the block mirrored both ways, and a banned answer leaves the reported user without an open connection |
| Handlers.Server.BlockHandler | backend/block.go:50-93 | Refuses exactly self-blocks and creates every other; a created block holds in both directions in the database and wherever a key exists |
| Handlers.Server.DisconnectClient | backend/admin.go:252-260 | The user has no open connection afterwards; every other client, and who awaits cleanup, is as before |
| Handlers.Server.AdminUserAction | backend/admin.go:192-234 | Not found iff no such user or action; the answer names the state the action asks for, and the account has it; changed iff the ban state changed; only a changed ban disconnects |
| RateLimiter.IpRateLimiter.constructor | backend/ratelimit.go:35-44 | The bucket holds the per-minute number of tokens and refills in at most a minute, short of it by less than one nanosecond a token; no limiter yet |
| RateLimiter.IpRateLimiter.Get | backend/ratelimit.go:46-57 | The known limiter or a full new one, marked as seen |
| RateLimiter.IpRateLimiter.Allow | backend/ratelimit.go:74-80 | Only the asking IP's limiter changes, and a missing IP passes |
| RateLimiter.IpRateLimiter.Collect | backend/ratelimit.go:59-72 | A tick deletes exactly the limiters unseen for ten minutes |
| RateLimiter.BucketFillsInAMinute | backend/ratelimit.go:18-20 | Whatever the rate, a bucket idle for the collection age is full |
| RateLimiter.EvictionIsUnobservable | backend/ratelimit.go:59-80 | Every schedule of requests and collections: an IP gets the answers of its own bucket that is never collected, whatever other IPs do |
| RateLimiter.EmptyIpAlwaysAdmitted | backend/ratelimit.go:76-78 | A request without an IP is always admitted |
| RateLimiter.RateIsBounded | backend/ratelimit.go:13-16 | In any window at most burst + floor(window / interval) requests of an IP pass, evictions included |
| RateLimiter.RefusalsAreNeeded | backend/ratelimit.go:74-80 | And the other half, for every schedule: a request is refused iff from some request on those admitted and this one exceed the burst plus what the time since then refills |
| RateLimiter.BurstPasses | backend/ratelimit.go:13-16 | The first burst requests of an IP all pass, however close together |
| RateLimiter.BeyondOneANanosecondEverythingPasses | backend/ratelimit.go:38 | Above one request a nanosecond, and for a negative number, the interval is not positive and nothing is refused |
| Pagination.InnerClampIsIdle | backend/db.go:216-224 | The clamp of listReports changes nothing after the handler's own |
| Pagination.RequestedPageAndLimit | backend/admin.go:100-110 | A limit from 1 to 100 is used as asked, 20 below and 100 above; a page below 1 means the first |
| Pagination.ShownPages | backend/admin.go:100-136 | A page below 1 shows the first, and a page the list reaches beyond is full |
| Pagination.OffsetExactIffItFits | backend/admin.go:111 | The 64-bit offset is the intended one iff the product fits |
| Pagination.PagesPartitionTheList | backend/admin.go:98-136 | Pages 1 to total_pages, concatenated, are the filtered list exactly once and in order |
| Pagination.PageIsEmptyIff | backend/admin.go:100-113 | A page is empty iff there are no rows or (page - 1) * limit modulo 2^64 is below 2^63 and no less than their number |
| Pagination.LaterPageIsEmpty | backend/admin.go:130-136 | Every page after total_pages whose offset fits is empty |
| Pagination.HugePageShowsFirstPage | backend/admin.go:100-111 | The largest page number shows the first page again |
| Handshake.RunOk | backend/main.go:330-356 | While nobody leaves or is matched twice, each client's messages, handlers and remote ID concern only its partner and fit its role |
| HandshakeDelivery.ClientsFollowTheLog | backend/main.go:267-295 | In every run, with any number of matches, departures and returns: init before any match; the matches a client handles are a prefix of its partners in the match log since it subscribed; it offers exactly to those it precedes |
| HandshakeDelivery.SettledClientsKnowTheLog | backend/main.go:276-292 | With nothing left on its way a client has received all of them |
| HandshakeDelivery.ExactlyOneOfferer | frontend/lib/signaling.dart:134-143 | In every run, of two clients that received a match with each other exactly one takes the offerer role; one matched with itself does not |
| HandshakeRoles.SendersKeepTheirRoles | frontend/lib/signaling.dart:214-246 | In every run, departures, returns and second matches included, in which nothing retargets a suspended handler: offers go only from a lower to a higher ID, answers only from a higher to a lower one and only after the remote description is set |
| HandshakeRoles.RolesKeptIffNothingRetargets | frontend/lib/signaling.dart:225-230 | At every moment of a run, however the suspended handlers go on, all senders keep their roles iff no step of the run retargets a suspended handler |
| HandshakeRoles.RetargetBreaks | frontend/lib/signaling.dart:225-230 | After a step that does, in any run whatever, at most two awaits send a message to the wrong side |
| HandshakeRoles.StaleOfferTurnsRolesAround | backend/main.go:346-355 | A run in which a returned user offers to a lower ID and its partner is sent nothing |
| HandshakeSafety.MatchedOnceRetargetsNothing | backend/main.go:295 | While nobody leaves or is matched twice nothing retargets a handler |
| HandshakeSafety.SendersAddressTheirPartner | frontend/lib/signaling.dart:214-246 | While nobody leaves or is matched twice, what a client sends keeps its role and goes to the partner of its match, even when the offer beats the match |
| HandshakeSafety.OneMoveBetweenPartners | frontend/lib/signaling.dart:129-151 | While nobody leaves or is matched twice, a matched pair has exactly one next move, in one place: no glare, no second offer, no lost or doubled answer |
| HandshakeSafety.HandshakeCompletesUnlessACallFails | frontend/lib/signaling.dart:214-257 | While nobody leaves or is matched twice: when a pair has settled, both have their match and the offerer has applied the answer, with both descriptions set, iff no awaited call failed |
| HandshakeRoles.HandshakeGetsThrough | frontend/lib/signaling.dart:120-257 | For any two users: when they are matched and every message and call gets through, the lower ID's offer is answered, the answer applied, both descriptions set and nothing left to do |
| HandshakeRoles.FailedCallEndsHandler | frontend/lib/signaling.dart:120-166 | After any run, a call that throws ends its handler and nothing is sent, set or applied; one that succeeds counts no failure |
| HandshakeRoles.RelayDelivers | backend/main.go:330-356 | After any run, the pod appends the oldest message of a client, in the sender's name, to the named recipient's websocket, to nobody else's, and to none if that user is not connected |
| Endpoints.Endpoint.constructor | frontend/lib/signaling.dart:185-187 | The books balance and nothing was handed over early, but no attempt is safe until there is a connection |
| Endpoints.Endpoint.HandleOffer | frontend/lib/signaling.dart:229-237 | Keeps a safe attempt safe; the handler will describe the connection there is now; an offer that finds none makes the attempt unsafe; everything else is unchanged |
| Endpoints.Endpoint.HandleAnswer | frontend/lib/signaling.dart:248-253 | Keeps a safe attempt safe; the handler will describe the connection there is now; without one an answer changes nothing |
| Endpoints.Endpoint.HandleIceCandidate | frontend/lib/signaling.dart:259-272 | Dropped without a connection; buffered and not handed over before the flag; handed over at once, with an empty buffer, after it; every candidate stays accounted for |
| Endpoints.Endpoint.FlushPendingRemoteCandidates | frontend/lib/signaling.dart:274-287 | The buffer is empty afterwards; what it held is, in order, the candidate handed over now and those the handler still has to hand over; other handlers are untouched |
| Endpoints.Endpoint.ResumeHandler | frontend/lib/signaling.dart:229-287 | Keeps a safe attempt safe; a creation that succeeds installs a fresh connection, which an offer goes on to describe; describes only the connection it captured and then flushes the buffer to the present one; hands candidates over one by one in order; a described offer goes on to its answer and a successful answer is sent, once and for its own, described connection; a throw ends the handler and nothing else |
| Endpoints.Endpoint.FindNextMatch | frontend/lib/signaling.dart:385-396 | Drops the connection, lowers the flag, discards the buffer, starts one creation and keeps every suspended handler; the next attempt, with offers that find a connection, is safe iff none of them awaits setRemoteDescription |
| Endpoints.Endpoint.PrewarmAgain | frontend/lib/signaling.dart:206-212 | Lowers the flag, discards the buffer and starts one creation; keeps the old connection and every suspended handler; no attempt is safe until the new connection is there |
| Endpoints.Endpoint.Dispatch | frontend/lib/signaling.dart:120-166 | Any run of the event loop is a run of the state machine; within an attempt it keeps the client safe |
| IceBuffering.CandidatesAreBuffered | frontend/lib/signaling.dart:229-287 | One attempt, every interleaving: no candidate before the description; each received candidate is buffered, being flushed or handed over, once; the buffer is empty whenever the flag is set |
| IceBuffering.SafeIffReady | frontend/lib/signaling.dart:206-287 | For every state with any handlers suspended: no interleaving of an attempt hands a candidate over early iff there is a connection, none is being created, and it is described or the flag is down and only its own description can raise it |
| IceBuffering.NextAttemptIsSafeIffIdle | frontend/lib/signaling.dart:385-396 | Every interleaving after findNextMatch that handles no offer before there is a connection is safe iff no handler was suspended at setRemoteDescription when it was called |
| IceBuffering.OfferBeforeConnectionHarms | frontend/lib/signaling.dart:232-233 | One offer handled while a connection is still being created is enough for a candidate to be handed over early |
| IceBuffering.AnswersFollowDescription | frontend/lib/signaling.dart:229-246 | In every run, teardowns included, a connection answers only after its remote description is set |
| IceBuffering.OffersAreAnswered | frontend/lib/signaling.dart:229-246 | In every run, teardowns included, the offers whose description succeeded are, one for one, those answered, those whose handler is still flushing or answering, and those whose createAnswer or setLocalDescription threw |
| IceBuffering.OfferGetsAnswer | frontend/lib/signaling.dart:229-246 | An offer to a pre-warmed client whose awaited calls succeed is answered |

## Assumptions

- Redis commands and scripts are atomic, Postgres runs Read Committed with row locks, and the limiter is a
  token bucket. Clocks, failures and message timing are parameters or events and otherwise arbitrary.
- `QueueProtocol`, `WaitTimes`, `Sessions` and `ConnectRaces` interleave single commands. `BackendSafety`,
  `BanWindow` and `AutoBan` take each handler and each turn of the match loop as one step, on one pod,
  without failing Redis commands except a failed re-queue; a block key may expire at any time.
- A user has at most one live connection, except in `Handlers`; `SecondConnectionMatchesItself` shows why this is needed.
- `Handshake` has one pod, FIFO channels and websockets, effective subscriptions and pre-warmed clients; a
  client that comes back starts afresh. `HandshakeDelivery` and `HandshakeRoles` are about every run. The
  results on pairs (`HandshakeSafety`) are about runs in which nobody leaves and each user is matched once
  at most: a connection is enqueued once (backend/main.go:295), the server drops `next_match`
  (backend/main.go:342), no ticket is matched twice, and without a removal during a pop no entry of an
  earlier connection is left (`UndisturbedRunsAreOrderly`).
- A user ID is a non-empty string, as the handlers refuse empty ones.

## Left out

- MatchMaking.MatchMaker.ProcessMatches: failures of HMGET, HDEL, SET and PUBLISH after a pair is accepted are not modelled, only those of the pop, the two lookups and the re-queue.
- MatchMaking.MatchMaker.Add: a failing RPUSH or HSET and the trigger publication are not modelled, nor are failing commands in the other single-command methods.
- MatchMaking.MatchMaker.SetSession: the 24-hour expiry of a session is not modelled, so session theorems speak of runs within it.
- Handlers.Server.HandleConnections: failing Redis commands during the cleanup and the heartbeat are not modelled.
- Handlers.Server.ReportHandler: checks of the form and the reason text, and database errors other than a violated constraint, are not modelled.
- ReportTransactions.Serialisable: waits on the unique index of `blocks`, deadlock detection and failing statements other than an abort are not modelled.
- RateLimiter.IpRateLimiter.Allow: the map lookup and the bucket read the clock once together, where the source reads it twice; the mutex is not modelled because each call is one step; tokens are integer credit, not floats.
- Pagination.PagesPartitionTheList: lists within 100 rows of 2^63 are excluded, where total_pages itself would overflow; the list is fixed between page requests.
- HandshakeSafety.HandshakeCompletesUnlessACallFails: clients that leave during the handshake, `bye` and `findNextMatch` are not covered; ICE candidates are in Signaling.
- ConnectRaces.BlockKeysExactIff: the two SADDs of a handler may come in either order, and the TTL that a recreated key lacks is not modelled.
- Endpoints.Endpoint.FindNextMatch: whether a disposed connection's pending call completes or throws is left open, and both are covered; `bye` and `next_match` messages are not modelled.
- Reading one report, listing one's own blocks, and the join with user columns: single lookups without a property across functions.
- Cross-pod relay and cross-pod disconnect: the map of clients is per pod, so those properties are stated for one pod.
- HTTP and WebSocket plumbing, token verification, object storage, metrics, heartbeat, logging, graceful shutdown, reconnect backoff and the user interface.
