# Verification of the WhatsApp gateway's protocols

This project models the parts of the gateway that are a small distributed system over Redis, or a single-threaded
state machine full of awaits, and proves what they keep. `dafny verify dfyconfig.toml` checks everything.

## How the model is built

Code that interleaves is a state machine: a `State`, an `Event` per stretch of code between two awaits (or per Redis
command, each Lua script being one), a total `Step` in which an event whose guard fails changes nothing, and `Run`
over any sequence of events. So a theorem over `Run` covers every order of callbacks, lost replies, expiries and
other instances' commands. Where the source updates fields, a class of the same shape has one method per stretch and
its contract says the new state is the machine's step. Where a method crosses awaits, what each await meets is a
parameter. Times are integers; a lease, lock or key may expire at any step.

Safety alone would be kept by a step that does nothing. So beside the invariants every event has a law on the fields
it moves (named `...So` or `...Iff`), and the operations have runs to their ends (`...Alone`).

| module | what it is |
|---|---|
| `ConnectionsHandler` | the per-phone slot, the re-validating connect loop, and the callbacks that fire at any time |
| `IdempotencyMarkers`, `Idempotency` | the texts of the lock key; the lock's life from acquisition to result, release or unknown outcome |
| `LeaseStore`, `AuthState`, `ImportCandidates` | epochs and leases; the owner fence in front of the auth hash; the compare-and-swap over import candidates |
| `Coordinator`, `ClaimCycle`, `Rebalance` | the epoch each operation holds; the claim scan and its cap; shedding load |
| `SendStallStore`, `QuarantineStore` | the two strike counters and their backoffs |
| `WithTimeout`, `SendBreaker`, `StallEpisode`, `AckTracking` | the deadline race; slots, breaker and wedged key; the stall handler with its restart; acknowledgement evidence |
| `EditRegister`, `EditOrder`, `EditContent` | the last-writer-wins register with its delivery chains; the order of a batch; where an edit's text goes |
| `HistoryFrames`, `HistoryAddressing` | the byte-budget splitter; LID to phone addressing |

## Where the code does less than one would like

Each item names the lemma that shows it, most of them by a run from the start, and the theorem that says when all
is well.

- The epoch counter and the lease are separate commands, so stored epochs can go back (`LeaseStore.EpochsCanRegress`);
  they increase exactly when SETs land in the order of their INCRs (`LeaseStore.IncreasingIffInDrawOrder`). The held
  epoch can then be below the one a live socket carries (`Coordinator.HeldBelowTheSocket`), since a socket's epoch only
  moves forward (`Coordinator.SocketEpochOnlyGrows`, `Coordinator.UnwindHandsOver`).
- `releaseHeldLease` releases whatever epoch is held, or with none what the key shows as ours
  (`src/cluster/coordinator.ts:1038-1050`). So a draining claim (`:372-382`, `:396-400`), a logout or a handoff can give
  a newer operation's lease away: `Coordinator.DrainGivesAwayASuccessor`, `Coordinator.LogoutGivesAwayASuccessor` and,
  with nothing held, `Coordinator.RereadGivesAwayASuccessor`. `Coordinator.GivesBackTheHeld` says when the release is
  the own one's, `Coordinator.RereadFinds` when what is found is wanted, and `Coordinator.GivesAwayIff` that no other
  step of an operation gives another's lease away.
- A renewal that finds the key gone can be beaten to it by an operation of its own instance, whose epoch it then
  deletes and whose socket it drops (`Coordinator.RenewalForgetsALiveLease`). Of all steps that deletion alone leaks a
  lease, exactly when the key holds the deleted epoch under the instance's own name
  (`Coordinator.LeaksOnlyByForgetting`).
- `Coordinator.NoLeaseLeaks` rests on replies being handled in the order Redis ran their commands; without that a lease
  leaks (`Coordinator.RepliesOutOfOrderLeak`).
- A connect that fails while probing a live socket releases that socket's only lease
  (`Coordinator.FailedReuseLeavesASocket`, exactly when by `Coordinator.FailedConnectLeavesASocketIff`).
  `Coordinator.SocketLosesItsLeaseIff` lists every step that leaves a socket without a held lease, and
  `Coordinator.SocketsKeepTheirLeases` is the run without them.
- While Redis is unreachable two instances can each keep a socket for one phone, which the code accepts on purpose
  (`Coordinator.UnreachableRedisKeepsTheSocket`); a renewal yields exactly when Redis answers
  (`Coordinator.RenewalYieldsIff`).
- `logoutAll` resets the registry without slots and can leave two live connections
  (`ConnectionsHandler.LogoutAllLeavesTwo`); it is harmless exactly when every connection is disowned by then
  (`ConnectionsHandler.LogoutAllIsSafeIff`).
- The import compare-and-swap covers the creds, not the cursor, so overlapping advances can move the cursor back even
  when all candidates differ (`ImportCandidates.CursorCanRegress`, `ImportCandidates.CommitIncreasesIff`).
- A strike can stay that stands for no restart, when a second one lands while the first one's reply is outstanding
  (`StallEpisode.OverlapLeavesAStrike`), and one can vanish that does stand for a restart: when a session strikes while
  another one's close is unfinished (`StallEpisode.UnfinishedCloseErasesAStrike`), or an ended session strikes after its
  successor was rebuilt (`StallEpisode.LateClearErasesAStrike`). Outside these `StallEpisode.StrikesAreRebuilds` holds.
  That nothing is muted for good needs no such condition.
- The veto of a queued restart (`src/baileys/connectionsHandler.ts:307-316`) does not look at the session's end, but it
  is never reached: when a handler commits to a restart the phone's slot is free (`StallEpisode.RestartIsNeverVetoed`).
- Order read from millisecond stamps confuses events of one millisecond (`SendBreaker.SameMillisecondFalseClear`,
  `SendStallStore.SameMillisecondConfusesRollback`); `SendBreaker.ClearsExactlyOnRelease` and
  `SendStallStore.RollbackIsExact` say when it does not.
- A restored send-stall key expires later by the time since its PTTL was read (`SendStallStore.RecordThenRestore`).
- `src/cluster/quarantineStore.ts:35-38` expects at most one lost strike; a late writer can undo any number
  (`QuarantineStore.LateWriterErases`) or undo a clear (`QuarantineStore.WipedStrikesReturn`). No strike is lost
  exactly when every SET finds what its GET read (`QuarantineStore.ExactIffUndisturbed`). The clamp of its exponent
  (`:24-33`) is never felt exactly when the configured base reaches the cap by then
  (`QuarantineStore.ClampIsUnfeltIff`).
- An edit's position can be evicted by its own claim (`EditRegister.EvictionForgets`), exactly when its message is not
  under delivery and a thousand other remembered ones are (`EditRegister.ClaimIsKeptIff`).

`Idempotency.AtMostOneHolder` has two stated assumptions, each shown to be needed. A third is built into its state:
`live` maps an instance id to its one running incarnation, so two processes never run under one id at a time.

## Model

| member | source | states |
|---|---|---|
| `ConnectionsHandler.OneLiveConnection` | src/baileys/connectionsHandler.ts:188-471 | in every interleaving of connect, forced restart, stall restart, logout, discard, wrong-number teardown, self-close and reconnect, a connection not disowned is the registered one, a phone never has two, and an open socket belongs to the registered connection or to one whose close has begun |
| `ConnectionsHandler.BuildsOnlyWhenRegistered` | src/baileys/connection.ts:664-758 | the only step that gives a connection a socket is the last check of connect(), and at that step the connection is registered and not disowned and every other connection of the phone is disowned |
| `ConnectionsHandler.DiscardedNeverBuilds` | src/baileys/connection.ts:664-699 | a disowned connection without a socket never gets one again, whatever connect() calls it had in flight |
| `ConnectionsHandler.SlotCanAlwaysBeFreed` | src/baileys/connectionsHandler.ts:188-212 | no state is deadlocked: whoever holds a phone's slot can always run to its end and free it |
| `ConnectionsHandler.DisownedIff` | src/baileys/connectionsHandler.ts:168-471 | a live connection is disowned exactly by a forced restart, its own restart still wanted, a discard or logout of its phone, an update that finds it without a socket, its own failed connect(), or its own abort or outside logout |
| `ConnectionsHandler.LiveStaysLive` | src/baileys/connectionsHandler.ts:188-471 | through any run with none of these it stays live, registered and the only one of its phone |
| `ConnectionsHandler.ConnectReusesIff` | src/baileys/connectionsHandler.ts:411-453 | with an entry registered, connect() touches no connection, entry, job or slot exactly when no restart is forced; when one is, the old connection is disowned and a new one registered in the slot |
| `ConnectionsHandler.ReusesAlone` | src/baileys/connectionsHandler.ts:449-453 | an undisturbed connect() on a connection with a socket only reconfigures and probes it |
| `ConnectionsHandler.ConnectsAlone` | src/baileys/connectionsHandler.ts:214-371 | an undisturbed connect() of a phone without a connection ends with a live registered one that has a socket, and the slot free |
| `ConnectionsHandler.DeadEntryIsEvicted` | src/baileys/connectionsHandler.ts:454-469 | a registered connection that has lost its socket is evicted and the phone decided again |
| `ConnectionsHandler.EntryMovesSo` | src/baileys/connectionsHandler.ts:168-471 | over all steps a phone's entry is set by the spawn connect() comes to, goes in exactly the ways listed, and otherwise stays |
| `ConnectionsHandler.SocketMovesSo` | src/baileys/connection.ts:664-990 | over all steps a connection's socket comes with the end of its connect() while it is live, and ends in exactly the ways listed |
| `ConnectionsHandler.SlotMovesSo` | src/baileys/connectionsHandler.ts:188-212 | over all steps a phone's slot is taken by a spawn, a discard or a logout, and freed by its holder alone |
| `ConnectionsHandler.DiscardsAlone` | src/baileys/connectionsHandler.ts:168-180 | an undisturbed discard disowns the registered connection, ends its socket, drops the entry and frees the slot |
| `ConnectionsHandler.LogsOutAlone` | src/baileys/connectionsHandler.ts:251-256 | an undisturbed logout ends the registered connection likewise; one of a connection no longer registered does nothing |
| `ConnectionsHandler.LogoutExcludesLive` | src/baileys/connectionsHandler.ts:188-212 | while a live connection's phone has its slot taken, the holder is a spawn or is on its way out: no logout or discard is under way beside it |
| `ConnectionsHandler.LogoutAllIsSafeIff` | src/baileys/connectionsHandler.ts:768-778 | the registry reset of logoutAll keeps the invariant exactly when every connection has been disowned by then |
| `ConnectionsHandler.LogoutAllLeavesTwo` | src/baileys/connectionsHandler.ts:768-778 | logoutAll breaks the claim: any live connection registered when it resets the registry survives, and the next connect adds a second one for the phone |
| `ConnectionsHandler.StepKeepsInv` | src/baileys/connectionsHandler.ts:188-471 | each single step keeps the whole invariant: live means registered, one holder per slot, and what each suspended operation relies on |
| `ConnectionsHandler.RunKeepsInv` | src/baileys/connectionsHandler.ts:188-471 | the same for any run from any state that satisfies it |
| `ConnectionsHandler.DeregisterKeepsInv` | src/baileys/connectionsHandler.ts:251-256 | the unconditional delete after a logout is safe, because under the logout's slot the entry can only be the connection just logged out |
| `ConnectionsHandler.BaileysConnectionsHandler.CallOperation` | src/baileys/connectionsHandler.ts:188-199 | an operation begins by waiting for its phone's slot |
| `ConnectionsHandler.BaileysConnectionsHandler.DecideConnect` | src/baileys/connectionsHandler.ts:411-447 | connect() from the drain to its next await: the resolver's veto, the forced discard, the reuse or the spawn, and nothing else |
| `ConnectionsHandler.BaileysConnectionsHandler.ProbeExisting` | src/baileys/connectionsHandler.ts:449-469 | after updateOptions: probe a live socket, or evict the dead entry only if it is still the one observed and decide again |
| `ConnectionsHandler.BaileysConnectionsHandler.SpawnConnection` | src/baileys/connectionsHandler.ts:214-350 | takes the slot, disowns any previous entry, registers the new connection and starts its connect() without an await |
| `ConnectionsHandler.BaileysConnectionsHandler.FinishSpawn` | src/baileys/connectionsHandler.ts:349-371 | a rejected connect() drops the entry only if it is still this connection and disowns it; a fulfilled one changes nothing |
| `ConnectionsHandler.BaileysConnectionsHandler.EnterSlot` | src/baileys/connectionsHandler.ts:168-180 | discard, logout and wrong-number logout inside the slot up to their first await |
| `ConnectionsHandler.BaileysConnectionsHandler.DeregisterLoggedOut` | src/baileys/connectionsHandler.ts:754-766 | the entry goes when the logout's close has ended |
| `ConnectionsHandler.BaileysConnectionsHandler.ReleaseSlot` | src/baileys/connectionsHandler.ts:205-211 | the slot is given back only if it is still this operation's, and is free afterwards |
| `ConnectionsHandler.BaileysConnectionsHandler.OnConnectionClose` | src/baileys/connectionsHandler.ts:230-242 | clears the entry only if it still points at this connection |
| `ConnectionsHandler.BaileysConnectionsHandler.BuildSocket` | src/baileys/connection.ts:696-758 | a connection disowned while it loaded its state returns without a socket |
| `IdempotencyMarkers.ProcessingRoundTrip` | src/helpers/withIdempotency.ts:329-348 | parsing a processing marker gives back the instance id and incarnation, colons and hashes in the id included, exactly when the incarnation has no hash |
| `IdempotencyMarkers.LegacyForms` | src/helpers/withIdempotency.ts:329-348 | the bare form parses to an empty id without incarnation, the pre-incarnation form to its id without one |
| `IdempotencyMarkers.FormsAreDisjoint` | src/helpers/withIdempotency.ts:252-281 | processing markers, both legacy forms, indeterminate markers and JSON results are never mistaken for one another |
| `IdempotencyMarkers.MarkersAreInjective` | src/helpers/withIdempotency.ts:53-66 | equal indeterminate markers come from the same process and the same attempt, equal processing markers from the same process |
| `Idempotency.InspectAgrees` | src/helpers/withIdempotency.ts:245-322 | the decision taken on the stored value is the one the code takes on its text, branch by branch |
| `Idempotency.AtMostOneHolder` | src/helpers/withIdempotency.ts:225-322 | at most one attempt at a time runs while holding the lock, given only that no value lapses under a holder and an instance reported dead is dead |
| `Idempotency.TwoAttemptsReachable` | src/helpers/withIdempotency.ts:166-260 | the state both witnesses start from is reached from an empty key |
| `Idempotency.LapseGivesTwoHolders` | src/helpers/withIdempotency.ts:1-7 | without the first assumption two attempts can hold the lock |
| `Idempotency.FalseDeathGivesTwoHolders` | src/helpers/withIdempotency.ts:287-322 | without the second assumption a live holder is robbed of its lock |
| `Idempotency.RetractsIff` | src/helpers/withIdempotency.ts:110-144 | a retraction empties the key exactly when it reaches Redis, its attempt was handed its marker and the key still holds that marker; otherwise nothing changes |
| `Idempotency.MarkThenRetract` | src/helpers/withIdempotency.ts:110-144 | an outcome marked unknown under the own lock and then retracted leaves the key free |
| `Idempotency.CachedResultStands` | src/helpers/withIdempotency.ts:99-108 | in every run, with fail-open attempts, lost replies, crashes, steals and late retractions, a cached result is never overwritten or deleted before its expiry |
| `Idempotency.OnlyItsWriterRetracts` | src/helpers/withIdempotency.ts:126-144 | an indeterminate marker leaves the key only by expiry or by a retraction from the one attempt that wrote it |
| `Idempotency.RunKeepsInv` | src/helpers/withIdempotency.ts:166-322 | what every attempt in flight relies on holds in every run, with no assumption on the environment |
| `Idempotency.RepeatedCall` | src/helpers/withIdempotency.ts:166-223 | a call repeated after a result is served that result and runs nothing; after an unknown outcome it is told so; only a call without effect leaves the key free |
| `Idempotency.UndisturbedIsAlone` | src/helpers/withIdempotency.ts:166-223 | the step machine driven by one attempt alone does to the key and answers exactly what the closed form says |
| `Idempotency.IdempotencyKey.WithIdempotency` | src/helpers/withIdempotency.ts:166-223 | the whole call, command by command: its effect on the key, on attemptCounter and its answer are the closed form's |
| `Idempotency.IdempotencyKey.AcquireOrSteal` | src/helpers/withIdempotency.ts:225-322 | the work runs with the lock exactly when the key is free or its holder may be robbed, without it when Redis is unreachable, and otherwise the caller gets the stored answer |
| `Idempotency.IdempotencyKey.MarkIndeterminate` | src/helpers/withIdempotency.ts:390-431 | bumps the counter, writes the marker only over nothing or the own lock, and hands it out only when it was written |
| `Idempotency.IdempotencyKey.ReleaseLock` | src/helpers/withIdempotency.ts:433-450 | an attempt without the lock deletes nothing; with it, only its own marker |
| `LeaseStore.StoredEpochsAreDistinct` | src/cluster/leaseStore.ts:62-86 | in every run no two leases ever stored share an epoch, none exceeds the counter, and the cell holds the lease stored last |
| `LeaseStore.ReleaseIsExact` | src/cluster/leaseStore.ts:45-53 | a release sent for one acquisition empties the cell exactly when it still holds that acquisition's lease |
| `LeaseStore.AcquiresSo` | src/cluster/leaseStore.ts:62-86 | an acquire draws the epoch above the counter, and a claim lands exactly on an empty key |
| `LeaseStore.LapseFreesTheKey` | src/cluster/leaseStore.ts:62-77 | after a lapse whoever claims next has the key |
| `LeaseStore.LateReleaseSparesSuccessors` | src/cluster/leaseStore.ts:102-111 | however late, a release with the epoch of one acquisition never removes a lease stored by a later operation |
| `LeaseStore.IncreasingIffInDrawOrder` | src/cluster/leaseStore.ts:62-86 | stored epochs increase along a run exactly when the SETs that land do so in the order of their INCRs |
| `LeaseStore.FencedRunsIncrease` | src/cluster/leaseStore.ts:62-86 | stored epochs strictly increase over every run in which no other INCR falls between an acquire's INCR and its SET |
| `LeaseStore.EpochsCanRegress` | src/cluster/leaseStore.ts:79-86 | two interleaved forced takeovers store a newer epoch and then an older one |
| `LeaseStore.HeldLeaseStands` | src/cluster/leaseStore.ts:32-53 | background claims, foreign releases, releases of other epochs and renewals never move a held lease; its owner renews, everybody else is told it is lost |
| `LeaseStore.LeaseKeys.AcquireLease` | src/cluster/leaseStore.ts:62-77 | whatever the SET NX meets: it wins, with the epoch drawn before, exactly when the cell is empty then, and otherwise leaves the cell alone |
| `LeaseStore.LeaseKeys.ForceAcquireLease` | src/cluster/leaseStore.ts:79-86 | stores its own lease under the epoch drawn, whatever happened in between |
| `LeaseStore.LeaseKeys.RenewLease` | src/cluster/leaseStore.ts:88-100 | "renewed" exactly for the owner, "missing" exactly for an empty cell |
| `LeaseStore.LeaseKeys.ReleaseLease` | src/cluster/leaseStore.ts:102-111 | deletes and reports true exactly when owner and epoch both match |
| `AuthState.TermReplaysOwner` | src/baileys/redisAuthState.ts:28-56 | through one instance's unbroken term the auth hash is the replay of that instance's own scripts in order; everybody else's did nothing |
| `AuthState.HeldLeaseFencesOthersOut` | src/baileys/redisAuthState.ts:28-56 | the same for a lease neither force-taken, released under its own owner and epoch, nor expired, whatever claims and stale releases fall in between |
| `AuthState.ForeignWritesNeedNoLease` | src/baileys/redisAuthState.ts:28-46 | a script of an instance that does not own the lease changes the hash only while there is no lease |
| `AuthState.LapseOpensTheFence` | src/baileys/redisAuthState.ts:21-27 | between a lapse and the next claim the old owner's late write still lands |
| `AuthState.SwapsIff` | src/baileys/redisAuthState.ts:48-75 | past the fence the import's swap writes creds and cursor together exactly on the creds it expected, and a clear leaves nothing |
| `AuthState.BatchIsPerField` | src/baileys/redisAuthState.ts:35-45 | after a batch every field is as the last pair naming it says, and untouched when none does |
| `AuthState.RedisAuthState.FencedAuthWrite` | src/baileys/redisAuthState.ts:79-95 | an empty batch succeeds; otherwise all pairs are applied in order or, fenced off, none |
| `AuthState.RedisAuthState.ClearRedisAuthState` | src/baileys/redisAuthState.ts:118-130 | true exactly when nothing is stored afterwards, which a 0 from the script alone does not say |
| `ImportCandidates.NoSaveIsLost` | src/baileys/redisAuthState.ts:57-75 | in every run with any number of overlapping advances, the stored creds are the last landed save's but for the noise key |
| `ImportCandidates.CommitChangesOnlyTheKey` | src/baileys/redisAuthState.ts:193-220 | a committed advance replaces exactly the noise key of the creds present at the commit |
| `ImportCandidates.CommitsIff` | src/baileys/redisAuthState.ts:193-234 | an advance commits exactly on a free or own lease and unchanged creds, goes back to its first read on changed ones, and gives up when fenced off |
| `ImportCandidates.CommitIncreasesIff` | src/baileys/redisAuthState.ts:65-75 | a commit moves the cursor forward exactly when the stored cursor is not beyond the one it had read, since the swap compares creds and not the cursor |
| `ImportCandidates.FreshCommitsCount` | src/baileys/redisAuthState.ts:176-234 | when each commit finds the cursor it read, the cursor moves by exactly one per success and at most (candidates - 1 - start) advances succeed |
| `ImportCandidates.CursorCanRegress` | src/baileys/redisAuthState.ts:176-234 | three overlapping advances over three different candidates end with the cursor moved back |
| `ImportCandidates.SoloAdvances` | src/baileys/redisAuthState.ts:176-220 | one advance alone moves to the next candidate and puts its key into the creds |
| `ImportCandidates.AuthHash.AdvanceImportCandidate` | src/baileys/redisAuthState.ts:176-234 | three attempts with the hash free to change at every await: success is one write, of the creds found there with only the noise key replaced and the cursor one further; failure writes nothing |
| `SendStallStore.StrikesBalance` | src/cluster/sendStallStore.ts:99-141 | for any number of owners the stored restarts equal strikes applied minus strikes taken back since the last clear or expiry |
| `SendStallStore.RollbackIsExact` | src/cluster/sendStallStore.ts:157-184 | in every run, a rollback changes the key exactly while its own strike is the one standing there, if and only if no other owner's equal strike stands; and then it uncovers the strike it was applied on |
| `SendStallStore.SameMillisecondConfusesRollback` | src/cluster/sendStallStore.ts:157-184 | such a twin occurs: of two first strikes of the same millisecond around a clear, the first one's rollback removes the second |
| `SendStallStore.RecordThenRestore` | src/cluster/sendStallStore.ts:99-184 | a strike on a history taken back undisturbed restores the value, and the expiry moved on by the time since its PTTL was read, so the same expiry exactly when none passed; an unreadable PTTL gives a full day |
| `SendStallStore.FirstStrikeThenRestore` | src/cluster/sendStallStore.ts:157-172 | a first strike taken back leaves no key |
| `SendStallStore.StruckBacksOff` | src/cluster/sendStallStore.ts:99-141 | a strike is one more than it found, and allows the next restart after five minutes doubled for every strike before it, at most an hour |
| `SendStallStore.RestartsAreSpaced` | src/cluster/sendStallStore.ts:58-64 | the first restart is always allowed; while its strike stands the next is exactly when that backoff is over |
| `SendStallStore.StallKey.CanRestart` | src/cluster/sendStallStore.ts:58-64 | allowed exactly when nothing that parses is stored or its time has come |
| `SendStallStore.BackoffDoublesToTheCap` | src/cluster/sendStallStore.ts:28-41 | the backoff starts at five minutes and doubles with each strike until it is an hour, from the fifth strike on |
| `SendStallStore.StallKey.RecordRestart` | src/cluster/sendStallStore.ts:99-141 | three compare-and-set attempts under any interference: one write, one more than exactly what it overwrote, or nothing at all |
| `SendStallStore.StallKey.RestoreState` | src/cluster/sendStallStore.ts:157-184 | undoes only its own value, giving back the previous one with the expiry that was found, or a full one |
| `QuarantineStore.ExactIffUndisturbed` | src/cluster/quarantineStore.ts:39-64 | no strike of a run without a clear is lost exactly when every SET still finds the count its own GET read |
| `QuarantineStore.NeverOvercounts` | src/cluster/quarantineStore.ts:39-64 | clears and expiry included, the stored strikes never exceed all those ever recorded |
| `QuarantineStore.LateWriterErases` | src/cluster/quarantineStore.ts:35-38 | one late writer undoes any number of strikes recorded since its read, where the comment expects one at worst |
| `QuarantineStore.WipedStrikesReturn` | src/cluster/quarantineStore.ts:39-83 | a clear that falls between a recordStrike's GET and its SET is undone: every strike is back, and one more |
| `QuarantineStore.ClampIsUnfeltIff` | src/cluster/quarantineStore.ts:24-33 | clamping the exponent changes no backoff exactly when the configured cap is reached by then |
| `WithTimeout.ExactlyOnce` | src/helpers/withTimeout.ts:35-73 | for every order of settling, expiring and reacting: the caller is answered once, by the operation or the deadline, and the late callback runs exactly once if the deadline answered and the operation then settled, and never otherwise |
| `WithTimeout.FirstAnswers` | src/helpers/withTimeout.ts:35-73 | whichever comes first, the operation or the deadline, the caller is answered by it once the microtasks have run, and an operation after the deadline has its late callback |
| `WithTimeout.AnswerStands` | src/helpers/withTimeout.ts:35-73 | an answer never changes, and after the operation's own answer the late callback stays silent for good |
| `WithTimeout.TimedCall.RunMicrotask` | src/helpers/withTimeout.ts:43-72 | each reaction, in queue order, is the step of the model |
| `SendBreaker.InFlightIsExact` | src/baileys/connection.ts:1115-1246 | in every run inFlightSends equals the live socket's admitted sends whose operation has not settled and stays within 0..8, and the timeout counter plus the sends not yet timed out never exceeds ten |
| `SendBreaker.TenIsReached` | src/baileys/connection.ts:1115-1230 | the bound of ten is reached from a fresh connection |
| `SendBreaker.ReplacedSocketIsSilent` | src/baileys/connection.ts:1232-1237 | settlements and timeouts of a replaced socket's sends move no counter and arm no key |
| `SendBreaker.NoLostWakeUp` | src/baileys/connection.ts:1248-1271 | whenever a keystore key is armed as wedged, every release of it reported so far was followed by another timeout of it; and the release still to come disarms it and closes the breaker |
| `SendBreaker.ClearsExactlyOnRelease` | src/baileys/connection.ts:1248-1271 | in every run, an error naming a key closes the breaker exactly when the keystore's last report of the key is a release, or a timeout sharing its millisecond with an earlier release; otherwise it arms the key |
| `SendBreaker.NoFalseClear` | src/baileys/connection.ts:1248-1271 | in every run with no release and later timeout of the key in one millisecond, the stamps read as released exactly when the key's last report is a release |
| `SendBreaker.StreakMovesSo` | src/baileys/connection.ts:1198-1388 | over all events the timeout counter: a success or release ends the streak, a live timeout or mutex refusal adds one, a late ordinary failure takes exactly one off, all else leaves it |
| `SendBreaker.BreakerClosesIff` | src/baileys/connection.ts:1198-1388 | an open breaker closes exactly when the streak ends, on an error naming a released key, or by one late failure at three |
| `SendBreaker.WedgeMovesSo` | src/baileys/connection.ts:1248-1388 | over all events the armed key: set by a live send's error naming a key not released, and cleared by a released key's error or the end of the streak |
| `SendBreaker.ReplacedKeystoreIsSilent` | src/baileys/connection.ts:513-532 | events of a replaced keystore change nothing |
| `SendBreaker.SameMillisecondFalseClear` | src/baileys/connection.ts:1261-1267 | the tie happens: a release and a later timeout in the same millisecond are read as released, and the breaker is cleared on a key that is held |
| `SendBreaker.BaileysConnection.AssertCanSend` | src/baileys/connection.ts:1115-1153 | admits exactly below eight in flight and three timeouts, and calls a refusal a stall only on an open socket |
| `SendBreaker.BaileysConnection.BeginSend` | src/baileys/connection.ts:1168-1176 | a slot is taken exactly by an admitted send, stamped with the socket's generation |
| `SendBreaker.BaileysConnection.SendSucceeded` | src/baileys/connection.ts:1198-1200 | frees the slot and clears the streak, on the current socket only |
| `SendBreaker.BaileysConnection.SendExpired` | src/baileys/connection.ts:1209-1215 | counts the timeout and keeps the slot with the operation |
| `SendBreaker.BaileysConnection.SendRejected` | src/baileys/connection.ts:1216-1226 | frees the slot; a mutex timeout on the current socket also notes the key and counts |
| `SendBreaker.BaileysConnection.OnLateSettle` | src/baileys/connection.ts:1315-1388 | frees the slot; a late success clears, a late failure takes one off the streak, a late mutex timeout notes the key, and a disowned or replaced socket's does none of these |
| `SendBreaker.BaileysConnection.NoteWedge` | src/baileys/connection.ts:1248-1271 | arms the key, or clears the breaker when its release is not older than its timeout |
| `SendBreaker.BaileysConnection.HandleTxEvent` | src/baileys/connection.ts:513-585 | records releases and timeouts of the current keystore, and closes the breaker on the armed key's release only |
| `SendBreaker.BaileysConnection.OnSocketCreated` | src/baileys/connection.ts:762-799 | a new socket starts with no streak, no slots taken, no armed key and no stamps |
| `StallEpisode.NeverMutedForGood` | src/baileys/connection.ts:1425-1713 | with restarts enabled, on a live connection an infinite silence always belongs to an unfinished handler or an unanswered restart request; once every episode is over every live connection can be reported again |
| `StallEpisode.DisabledStaysMuted` | src/baileys/connection.ts:1454-1476 | with restarts off one report silences the socket until something clears the stall |
| `StallEpisode.LaunchesIff` | src/baileys/connection.ts:1425-1456 | an episode starts exactly on an open live socket, three timeouts deep and ninety seconds into its streak, past its silence, with no request pending |
| `StallEpisode.LookupVerdict` | src/baileys/connection.ts:1484-1586 | a restart is asked for exactly when the reads succeeded, the stall still stands, the lease is its own, the backoff allows it and the process has one to spare; the backoff's end is read exactly when it does not allow it; a foreign lease disowns |
| `StallEpisode.NextVerdict` | src/baileys/connection.ts:1527-1566 | the silence then lasts until the time read, a cooldown after a failed read, and is lifted for a stale episode; nothing is written |
| `StallEpisode.BackoffIsHonoured` | src/baileys/connection.ts:1516-1566 | over every run an episode whose lookup said no never strikes, rebuilds or asks again |
| `StallEpisode.SilenceIsKept` | src/baileys/connection.ts:1425-1456 | over every run that does not clear the stall, a silenced connection with nobody at work on it is not reported again before the time named |
| `StallEpisode.BackoffSilences` | src/baileys/connection.ts:1516-1566 | so a second stall within the backoff is not reported again before its end, unless something clears it |
| `StallEpisode.CalledOffSo` | src/baileys/connection.ts:1608-1669 | a restart that is not to be: an ended session has the key cleared, any other takes its strike back if the key still is what it wrote, and the connection goes exactly when its lease is owned elsewhere |
| `StallEpisode.CommittedRebuilds` | src/baileys/connection.ts:1704-1712 | a restart that is to be: the connection is disowned, a fresh one registered in the slot, and one strike accounted for |
| `StallEpisode.RestartIsNeverVetoed` | src/baileys/connectionsHandler.ts:307-346 | in every run, when a handler commits to a restart the phone's slot is free, so the request never waits for it and is never vetoed |
| `StallEpisode.RebuildsExactlyWhenCommitted` | src/baileys/connection.ts:1608-1712 | after its strike is recorded a handler's connection is replaced, in the same stretch, exactly when it is live, its session is not ending, its lease is its own and the restart still wanted |
| `StallEpisode.StrikesAreRebuilds` | src/baileys/connection.ts:1478-1713 | with Redis answering, and strikes landing only while no other strike is outstanding and, for a session that goes on, no close, or for an ended one, no history of its successor: once nothing is outstanding the backoff key is what the session began with plus one strike per restart carried out, or empty if the session ended, a strike landing during its own close included |
| `StallEpisode.LedgerMovesOnlyByRebuilds` | src/baileys/connectionsHandler.ts:271-346 | what the key should hold changes only by a restart carried out, by one strike, or by the end of a session |
| `StallEpisode.OverlapLeavesAStrike` | src/baileys/connection.ts:1789-1828 | from the start: a second strike landing while the first one's reply is outstanding; both restarts are called off, and one strike stays with no restart behind it |
| `StallEpisode.LateClearErasesAStrike` | src/baileys/connection.ts:1614-1644 | from the start: the handler of an ended session strikes after its successor has been rebuilt, and its clear wipes the successor's strike |
| `StallEpisode.UnfinishedCloseErasesAStrike` | src/baileys/connection.ts:1478-1713 | from the start: a successor is rebuilt while the ended session's close has still to delete the key, and its strike goes with the key |
| `StallEpisode.StepKeepsOwners` | src/baileys/connection.ts:1425-1713 | each single step keeps an owner for every infinite silence |
| `StallEpisode.StepKeepsBooks` | src/baileys/connection.ts:1478-1713 | each such step keeps the account: calling off the one episode that owes a strike, wherever it is, would leave the key as it should be |
| `StallEpisode.Watchdog.MaybeReportSendStall` | src/baileys/connection.ts:1425-1456 | launches an episode exactly when the streak is deep and long enough on an open live socket with no silence and no restart pending |
| `StallEpisode.Watchdog.AfterLookup` | src/baileys/connection.ts:1484-1586 | every verdict after the first reads: stale, owned elsewhere, backing off, no process slot, or restart |
| `StallEpisode.Watchdog.AfterNextAllowed` | src/baileys/connection.ts:1527-1566 | silences until the advertised time, or a cooldown on error, or lifts the silence of a stale episode |
| `StallEpisode.Watchdog.AfterRecord` | src/baileys/connection.ts:1608-1669 | after the strike landed: clear for an ended session, take it back when discarded, owned elsewhere or recovered, otherwise request the restart and, the slot being free, rebuild at once |
| `StallEpisode.Watchdog.AfterRecordFailure` | src/baileys/connection.ts:1670-1703 | a failed write withdraws the request and re-arms on a cooldown, or lifts a stale silence |
| `StallEpisode.Watchdog.RollBackStallStrike` | src/baileys/connection.ts:1789-1828 | takes the rollback out first, then clears for an ended session or restores exactly this increment |
| `StallEpisode.Watchdog.PastTheSlot` | src/baileys/connectionsHandler.ts:307-346 | connect() past the drain: replaces the registered connection whose restart is pending; otherwise withdraws and rolls back |
| `StallEpisode.Watchdog.AfterSlotDrained` | src/baileys/connectionsHandler.ts:307-326 | restarts the registered connection whose restart is still pending; otherwise withdraws and rolls back |
| `AckTracking.LatestAckIsReported` | src/baileys/connection.ts:3169-3238 | while neither memory overflows the reported time is the latest acknowledgement of any submitted message, in whichever order ids and acknowledgements became known, although a batch is looked at only up to its first known id |
| `AckTracking.HistoriesAreTrue` | src/baileys/connection.ts:419-442 | the acknowledgements and submissions that statement speaks of are exactly those of the run |
| `AckTracking.NoIdTwice` | src/baileys/connection.ts:419-442 | no submitted id is remembered twice |
| `AckTracking.ClaimsOnce` | src/baileys/connection.ts:419-442 | a submission takes exactly its own acknowledgement out of the parked ones |
| `AckTracking.EvidenceIsReal` | src/baileys/connection.ts:419-442 | the reported time is always that of a real acknowledgement of a message this socket submitted, and the memories stay within 500 and 100 |
| `AckTracking.NeverBackwards` | src/baileys/connection.ts:419-442 | on one socket the reported time never moves back |
| `AckTracking.AckTracker.TrackSubmittedId` | src/baileys/connection.ts:419-442 | makes room, remembers the id, and claims a parked acknowledgement without moving the time back |
| `AckTracking.AckTracker.OnAcks` | src/baileys/connection.ts:3169-3222 | a batch: unknown ids are parked up to the first known one, which stamps the present and ends the look |
| `AckTracking.AckTracker.RememberUnmatchedAck` | src/baileys/connection.ts:3224-3233 | makes room, then parks the id under the present |
| `EditRegister.LastWriterWins` | src/baileys/connection.ts:2640-2696 | for every order of arrival, as long as the position is not evicted, the position stored in the end is the lexicographic maximum of time, event and rank of all claims |
| `EditRegister.LastAcceptedIsStored` | src/baileys/connection.ts:2640-2696 | what is stored in the end is the last claim accepted, as long as nothing evicts it |
| `EditRegister.ArrivalOrderIsIrrelevant` | src/baileys/connection.ts:2624-2639 | two runs with the same claims for a message, in any order, store the same position |
| `EditRegister.AcceptedClaimsIncrease` | src/baileys/connection.ts:2684-2696 | accepted claims of one message strictly increase when its positions are distinct |
| `EditRegister.ClaimIsBounded` | src/baileys/connection.ts:2646-2674 | after an accepted claim the memory holds at most 1000 positions or only messages under delivery; nothing under delivery is evicted; and the new position stays unless the rest is full of protected ones |
| `EditRegister.ClaimIsKeptIff` | src/baileys/connection.ts:2646-2674 | an accepted position is remembered exactly when its message is under delivery or fewer than a thousand other remembered ones are; otherwise, and only then, an older edit of it is accepted next |
| `EditRegister.SurvivorsCount` | src/baileys/connection.ts:2654-2673 | eviction takes exactly the excess, or every unprotected entry when those are fewer |
| `EditRegister.SurvivorsAreNewest` | src/baileys/connection.ts:2646-2673 | nothing unprotected is kept while something claimed later is dropped |
| `EditRegister.EvictionForgets` | src/baileys/connection.ts:2654-2673 | with a thousand messages under delivery an edit of another message is forgotten at once and an older one accepted after it |
| `EditRegister.DeliveriesRunInOrder` | src/baileys/connection.ts:2574-2592 | deliveries of one message run one at a time in enqueue order; its chain entry is the last of them while any is unfinished, and is gone exactly when there is none or the last one's finally() has run |
| `EditRegister.ChainMovesSo` | src/baileys/connection.ts:2574-2592 | a work waits for what the entry held, starts exactly when everything before it is over, and takes the entry out in its finally() if it still is its own; other messages are left alone |
| `EditRegister.FirstUnfinishedCanRun` | src/baileys/connection.ts:2574-2592 | no chain gets stuck: the first work not over is running or can start |
| `EditRegister.DeliveryKeepsPosition` | src/baileys/connection.ts:2658-2671 | no claim evicts the position of a message with an unfinished delivery |
| `EditRegister.UnderDeliveryIsKept` | src/baileys/connection.ts:2658-2671 | the same over whole runs |
| `EditRegister.EditGuard.ClaimEditPosition` | src/baileys/connection.ts:2640-2674 | the claim with its eviction loop does exactly what the register says, on keys in claim order |
| `EditRegister.EditGuard.EvictOldest` | src/baileys/connection.ts:2654-2673 | the loop leaves exactly the survivors, oldest unprotected first to go |
| `EditRegister.EditGuard.EditSuperseded` | src/baileys/connection.ts:2684-2696 | true exactly for a position before the stored one |
| `EditRegister.EditGuard.EnqueueEditDelivery` | src/baileys/connection.ts:2574-2592 | chains the work after whatever the entry holds and becomes the entry |
| `EditRegister.EditGuard.OnDrained` | src/baileys/connection.ts:2584-2590 | the entry goes only if nothing queued behind |
| `EditOrder.OldestFirstIsSorted` | src/baileys/helpers/secretEncryptedMessageEdit.ts:196-211 | the edits come out each exactly once, in time order |
| `EditOrder.NewestFirstIsReversed` | src/baileys/helpers/secretEncryptedMessageEdit.ts:178-195 | a dump built newest first comes out exactly reversed |
| `EditOrder.OrderedIsUnchanged` | src/baileys/helpers/secretEncryptedMessageEdit.ts:196-211 | an array already in order comes out as it went in |
| `EditOrder.LongRoundTrip` | src/baileys/helpers/secretEncryptedMessageEdit.ts:20-34 | a Long split into signed halves reads back as the 64-bit integer it came from |
| `EditOrder.BatchPositionsIncrease` | src/baileys/connection.ts:2742-2749 | the positions a sorted batch claims strictly increase, ties in one second included, and differ from every other event's |
| `EditOrder.BatchIsApplied` | src/baileys/connection.ts:2742-2788 | a batch no older than what is stored, applied in sorted order, has every claim accepted |
| `EditContent.ReplacementKeepsWrappers` | src/baileys/helpers/secretEncryptedMessageEdit.ts:136-176 | the edited message keeps every wrapper, its fields and siblings, and its content is then the edit |
| `EditContent.EditedIsAssembled` | src/baileys/helpers/secretEncryptedMessageEdit.ts:150-176 | the edited message is, to the letter, the layers around the content with the edit inside them |
| `EditContent.LaterEditReplaces` | src/baileys/helpers/secretEncryptedMessageEdit.ts:150-176 | a second edit replaces the first as if that had never been |
| `EditContent.ReplaceInnerContent` | src/baileys/helpers/secretEncryptedMessageEdit.ts:150-176 | the bounded walk does exactly that replacement; an absent message becomes the edit itself |
| `HistoryFrames.HistoryFrames` | src/baileys/helpers/historySync.ts:80-116 | the frames carry the stripped dump once and in order; each has exactly the names of the chats its own messages are addressed to, is within budget with them unless it is one message, and would have been too heavy with the next frame's first |
| `HistoryFrames.FramesAreAFraming` | src/baileys/helpers/historySync.ts:80-116 | the same of the greedy frames, in terms of the messages' bytes, their stripped addresses and the names at hand |
| `HistoryFrames.FramesConserve` | src/baileys/helpers/historySync.ts:80-116 | frames are non-empty, within budget unless they hold one message, and their concatenation is the input in order |
| `HistoryFrames.EverythingIsSent` | src/baileys/helpers/historySync.ts:56-116 | all frames together carry the stripped messages, each once, in order |
| `HistoryFrames.CutsAreForced` | src/baileys/helpers/historySync.ts:99-104 | every cut happens because the next message did not fit |
| `HistoryFrames.FewestFrames` | src/baileys/helpers/historySync.ts:59-79 | no other way of cutting the same dump into frames that may be sent needs fewer frames |
| `HistoryFrames.ChargeSnoc` | src/baileys/helpers/historySync.ts:94-110 | a frame's charge grows by the message and by one entry only for a named group it does not carry yet |
| `HistoryFrames.StripCleans` | src/baileys/helpers/historySync.ts:33-54 | no stripped field is left at any depth |
| `HistoryFrames.StripKeepsTheRest` | src/baileys/helpers/historySync.ts:33-54 | at every place whose keys are all kept there is afterwards what was there, stripped in its turn, and nothing where nothing was |
| `HistoryFrames.StripKeepsTheAddress` | src/baileys/helpers/historySync.ts:33-54 | stripping does not change which chat a message is addressed to |
| `HistoryFrames.CleanIsUntouched` | src/baileys/helpers/historySync.ts:33-54 | a payload without such fields is unchanged |
| `HistoryFrames.StripTwice` | src/baileys/helpers/historySync.ts:33-54 | stripping twice is stripping once |
| `HistoryAddressing.LidPnIndex` | src/baileys/helpers/historySync.ts:296-313 | the index answers each LID as the first pair naming it with a phone on its other side, source by source, and no other LID |
| `HistoryAddressing.RestoredAltsArePhones` | src/baileys/helpers/historySync.ts:330-357 | whichever way round pairs were handed over, every restored alternate address is a phone, named for the message's own sender, in the field its chat calls for; other messages are untouched |
| `HistoryAddressing.KnownSendersGetTheirPhones` | src/baileys/helpers/historySync.ts:330-357 | every LID sender the pairs name gets exactly the phone of the first pair naming it, in the field its chat calls for |
| `HistoryAddressing.PairReadsIff` | src/baileys/helpers/historySync.ts:296-313 | a pair names somebody exactly when its one side is on a LID server and the other on a phone server |
| `HistoryAddressing.LidUserIff` | src/baileys/helpers/historySync.ts:205-220 | a jid names a LID's user exactly on a LID server, and is a phone exactly on a phone server |
| `HistoryAddressing.NormalizedJidSplits` | src/baileys/helpers/historySync.ts:199-203 | a normalized jid splits back into its user and server |
| `HistoryAddressing.DeviceSuffixIsDropped` | src/baileys/helpers/historySync.ts:194-203 | a device suffix does not change which account a jid names |
| `Rebalance.EveryMoveImproves` | src/cluster/coordinator.ts:469-490 | with accurate counts an instance over its share is never blocked by the improvement guard; its move conserves the total, strictly lowers the sum of squared loads and leaves the receiver within ceil(P/N) |
| `Rebalance.RestIffBalanced` | src/cluster/coordinator.ts:469-490 | nobody has a move exactly when every load is at most ceil(P/N) plus the tolerance |
| `Rebalance.MovesAreBounded` | src/cluster/coordinator.ts:442-560 | a run of moves is no longer than the number of connections above fair share |
| `Rebalance.ReceiversNeverShed` | src/cluster/coordinator.ts:436-441 | an instance within fair share, as every receiver is, never becomes a sender |
| `Rebalance.GuardNeverBlocks` | src/cluster/coordinator.ts:469-490 | with accurate counts the decision is to shed exactly when the load is above ceil(P/N) plus the tolerance: the improvement guard never blocks |
| `Rebalance.ShedsToTheLeastLoaded` | src/cluster/coordinator.ts:469-495 | on the counts: sheds exactly when over the share by more than the tolerance and the first least loaded live peer would still hold fewer, to that peer, forced exactly above twice the share |
| `Rebalance.LivePeersInOrder` | src/cluster/coordinator.ts:460-470 | the live peers are the others not draining, in their order |
| `Rebalance.DecideRebalance` | src/cluster/coordinator.ts:442-495 | decides nothing while disabled, draining, degraded, throttled or just after a claim, and otherwise by the live peers |
| `Rebalance.DecideAmong` | src/cluster/coordinator.ts:469-495 | sheds exactly when over share plus tolerance and the move improves the balance, to the first least loaded live peer, forced exactly above twice the share |
| `Rebalance.PickTarget` | src/cluster/coordinator.ts:484-486 | the first of the least loaded peers |
| `ClaimCycle.FairShareHolds` | src/cluster/coordinator.ts:279-327 | claims that are neither directed nor orphaned number at most max(0, ceil(P/N) - connections held) |
| `ClaimCycle.ClaimsAreJustified` | src/cluster/coordinator.ts:295-366 | a claim is only of a phone read as unleased and paired whose lease was won; one named to another instance is never taken, one on cooldown or in quarantine only when handed over by name |
| `ClaimCycle.ClaimedIff` | src/cluster/coordinator.ts:295-366 | a turn claims exactly a phone read as unleased and paired whose lease was won and that is handed over by name, or is named to nobody, off cooldown, out of quarantine and under the cap or orphaned; its kind and its clock likewise |
| `ClaimCycle.ShareIsCeiling` | src/cluster/coordinator.ts:279-283 | the share is the stored phones over the live instances, rounded up, one being assumed when none is live |
| `ClaimCycle.FreePhonesAreTaken` | src/cluster/coordinator.ts:284-366 | every free phone of a scan is claimed, in order, as long as all fit under the share |
| `ClaimCycle.LoneInstanceTakesAll` | src/cluster/coordinator.ts:279-366 | a lone instance starting up claims everything that is stored and free |
| `ClaimCycle.ScanIsTurnByTurn` | src/cluster/coordinator.ts:284-292 | a scan is its turns one by one up to the first that finds the instance draining |
| `ClaimCycle.OrphanClockIsHonest` | src/cluster/coordinator.ts:302-311 | a phone counts as orphaned from a cycle that found it without a lease, with no look since that found one, over any number of cycles |
| `ClaimCycle.ScanCandidates` | src/cluster/coordinator.ts:284-366 | the scan, turn by turn, ended by a drain, is the model's |
| `ClaimCycle.OneTurn` | src/cluster/coordinator.ts:295-366 | one turn with every read free to throw |
| `Coordinator.EveryLeaseIsAccounted` | src/cluster/coordinator.ts:366-1100 | in every run of claims, connects, restarts, logouts, renewals and handoffs, every epoch ever held is held now, was replaced by another held epoch, had a release of exactly it sent, or was deleted by a renewal that found the key gone or foreign |
| `Coordinator.ClaimsAreSettled` | src/cluster/coordinator.ts:366-434 | a claim that won its lease ends in a successful connect under it, in a release of it, or with it replaced by another held epoch or lost to a renewal |
| `Coordinator.RunKeepsAccounts` | src/cluster/coordinator.ts:366-1050 | the account of the ledger and of every operation in flight holds in every run |
| `Coordinator.NoLeaseLeaks` | src/cluster/coordinator.ts:719-777 | with replies handled in order, whenever nothing is on its way to or from Redis, a lease there under this instance's name is the one it holds in memory, or one a renewal deleted there |
| `Coordinator.RunKeepsNoLeak` | src/cluster/coordinator.ts:644-1050 | the same with commands and replies still under way: the last SET's lease is about to be booked, or else is held, about to be released, or deleted by a renewal |
| `Coordinator.LeaksOnlyByForgetting` | src/cluster/coordinator.ts:644-1050 | of all steps, replies in order, one leaks a lease: a renewal deleting the held epoch when the key holds exactly that one under the instance's own name |
| `Coordinator.OwnRenewalTouchesNothing` | src/cluster/coordinator.ts:644-650 | a renewal that finds the key under its own name is done, with nothing else touched |
| `Coordinator.RenewalEndsSo` | src/cluster/coordinator.ts:644-709 | for every reply: the held epoch and the socket go exactly when the script found a foreign key, or none and the SET then met one; the key is taken back, and memory and socket learn the epoch, exactly when both found none; otherwise nothing changes |
| `Coordinator.RenewalForgetsALiveLease` | src/cluster/coordinator.ts:644-695 | from the start: a renewal beaten to a vanished key by its own instance's connect deletes that connect's epoch and drops its socket, and the lease stays behind |
| `Coordinator.RepliesOutOfOrderLeak` | src/cluster/coordinator.ts:732-734 | from a reachable state: without the order of replies a lease leaks with no renewal in sight |
| `Coordinator.GivesBackTheHeld` | src/cluster/coordinator.ts:372-400 | a draining claim, a logout or a handoff releases the epoch held at that moment, or reads the key when there is none; an own one is gone before unless it is the one held; and left alone, the own one has been released in the end exactly when it had been, was held, or nothing was held and the key had it |
| `Coordinator.HandsOverAlone` | src/cluster/coordinator.ts:1088-1097 | an undisturbed handoff closes the socket and then releases exactly the held epoch |
| `Coordinator.RereadFinds` | src/cluster/coordinator.ts:1038-1050 | with nothing held, what the read finds under the instance's name is wanted by another operation exactly when it is held by then or a reply is outstanding, and is otherwise being released already or was deleted by a renewal |
| `Coordinator.GivesAwayIff` | src/cluster/coordinator.ts:644-1050 | an operation's step sends a release of a lease another one wants exactly when it gives back what is held, or releases what its read had found; failing connects, restarts and renewals never do |
| `Coordinator.RereadGivesAwayASuccessor` | src/cluster/coordinator.ts:1038-1050 | from the start: a drain with nothing held finds a connect's stored lease whose reply is outstanding, and releases it |
| `Coordinator.LogoutGivesAwayASuccessor` | src/cluster/coordinator.ts:998-1032 | from the start: a connect that comes up while a logout clears strikes and backoffs loses its lease to the release that ends the logout |
| `Coordinator.DrainGivesAwayASuccessor` | src/cluster/coordinator.ts:394-400 | from the start: the drain of a claim superseded by a connect releases that connect's lease under its live socket |
| `Coordinator.SocketEpochOnlyGrows` | src/baileys/connection.ts:632-642 | while one socket lives the epoch it carries never goes back |
| `Coordinator.UnwindHandsOver` | src/cluster/coordinator.ts:974-988 | a restart with nothing to restart keeps its lease only for a live socket, which then carries its epoch exactly when it carried none newer |
| `Coordinator.HeldBelowTheSocket` | src/cluster/coordinator.ts:974-988 | from the start: with SETs out of draw order the held epoch is below the one the live socket carries |
| `Coordinator.RestartKeepsNoIdleLease` | src/cluster/coordinator.ts:864-988 | whichever step ends a restart that had its lease: it connected, the lease was given back or had gone, or it backs a live socket carrying this epoch or a newer one |
| `Coordinator.SocketLosesItsLeaseIff` | src/cluster/coordinator.ts:372-988 | over all steps: a live socket loses its held lease, or comes up without one, exactly when a connect under the held epoch fails and leaves the socket, a drain, logout or handoff gives back under a live socket, a renewal deletes the epoch, or a connect that is no restart gets its turn with nothing held |
| `Coordinator.SocketsKeepTheirLeases` | src/cluster/coordinator.ts:372-988 | in every run without such a step a live socket has a held lease throughout |
| `Coordinator.FailedConnectLeavesASocketIff` | src/cluster/coordinator.ts:742-753 | a failed connect leaves a live socket and nothing held exactly when it was probing or its spawn was not the registered one, a socket is up, and no other epoch is held |
| `Coordinator.FailedReuseLeavesASocket` | src/cluster/coordinator.ts:742-753 | from the start: a connect that fails while probing a live socket releases its lease and leaves that socket with none |
| `Coordinator.RenewalYieldsIff` | src/cluster/coordinator.ts:644-709 | a renewal of a key another instance holds drops the socket and the held epoch exactly when Redis answers |
| `Coordinator.UnreachableRedisKeepsTheSocket` | src/cluster/coordinator.ts:696-708 | from the start: while Redis is unreachable a socket is kept whose phone another instance has leased |
| `Coordinator.Coordinator.AbandonExplicitLease` | src/cluster/coordinator.ts:764-773 | forgets the epoch only if it is the one held and releases only that lease |
| `Coordinator.Coordinator.ReleaseHeldLease` | src/cluster/coordinator.ts:1038-1050 | forgets and releases whatever epoch is held; with none, goes on to read the key |
| `Coordinator.Coordinator.ReadTheKey` | src/cluster/coordinator.ts:1042-1048 | finds the epoch only of a lease under the own name |
| `Coordinator.Coordinator.ReleaseFound` | src/cluster/coordinator.ts:1042-1049 | releases exactly what was found, and nothing otherwise |
| `Coordinator.Coordinator.EndLogout` | src/cluster/coordinator.ts:998-1032 | the socket is gone, the release comes later |
| `Coordinator.Coordinator.DiscardConnection` | src/baileys/connectionsHandler.ts:168-180 | the socket goes, for a lost lease or ahead of a handoff's release |
| `Coordinator.Coordinator.AcquireExplicitLease` | src/cluster/coordinator.ts:719-731 | a worker is turned away exactly by another live owner |
| `Coordinator.Coordinator.HoldLease` | src/cluster/coordinator.ts:653-678 | a won lease is booked as held; a renewal's also moves the live socket's epoch forward |
| `Coordinator.Coordinator.UpdateLeaseEpoch` | src/baileys/connectionsHandler.ts:478-487 | a live socket takes the epoch only if it is not older than its own |
| `Coordinator.Coordinator.SettleClaim` | src/cluster/coordinator.ts:394-406 | a claim after its delay: drained, superseded, or on to its connect |
| `Coordinator.Coordinator.UnwindRestartLease` | src/cluster/coordinator.ts:974-988 | nothing when superseded, the epoch to a live socket, and otherwise the lease given back |
| `Coordinator.Coordinator.ConnectPastDrain` | src/baileys/connectionsHandler.ts:411-449 | a restart is vetoed exactly when its epoch is no longer the held one; otherwise the socket is reused or replaced |
| `Coordinator.Coordinator.FinishConnect` | src/cluster/coordinator.ts:742-753 | a rejected connect gives exactly its own lease back |
| `Coordinator.Coordinator.RenewOne` | src/cluster/coordinator.ts:644-709 | an unreachable Redis changes nothing, a foreign lease is to be forgotten, a missing one taken again |
| `Coordinator.Coordinator.ForgetLostLease` | src/cluster/coordinator.ts:680-685 | deletes whatever epoch is held, with no release |
| `Idempotency.IdempotencyKey.AcquireLock` | src/helpers/withIdempotency.ts:358-372 | takes the key exactly when it is empty |
| `Idempotency.IdempotencyKey.StealLock` | src/helpers/withIdempotency.ts:71-83 | replaces the value exactly when it is still the one observed |
| `Idempotency.IdempotencyKey.WriteOver` | src/helpers/withIdempotency.ts:99-108 | writes over nothing, or over the own marker when the lock is held, and over nothing else |
| `Idempotency.IdempotencyKey.DeleteOwn` | src/helpers/withIdempotency.ts:110-124 | deletes the key exactly while it holds the expected value |
| `AuthState.RedisAuthState.ClearIfOwner` | src/baileys/redisAuthState.ts:48-56 | deletes the hash unless fenced off; answers 0 both when fenced off and when there was nothing to delete |
| `ImportCandidates.AuthHash.CompareAndSwap` | src/baileys/redisAuthState.ts:65-75 | 0 exactly when fenced off, 1 exactly when unfenced with unchanged creds, which alone writes creds and cursor together |
| `SendStallStore.StallKey.CompareAndSet` | src/cluster/sendStallStore.ts:68-84 | writes with a fresh expiry exactly when the key still reads as expected, absence included |
| `WithTimeout.TimedCall.OnTimer` | src/helpers/withTimeout.ts:59-66 | the deadline fires only from an armed timer with no reaction pending, and marks the call timed out |
| `WithTimeout.TimedCall.OnOperationSettled` | src/helpers/withTimeout.ts:41-57 | a settlement queues its reaction ahead of the race |
| `SendBreaker.BaileysConnection.ClearSendStallState` | src/baileys/connection.ts:1281-1291 | ends the streak and disarms the key, and touches nothing else |
| `SendBreaker.BaileysConnection.ReleaseInFlight` | src/baileys/connection.ts:1232-1236 | gives back a slot of the current socket only |
| `SendBreaker.BaileysConnection.RecordSendTimeout` | src/baileys/connection.ts:1390-1412 | counts a timeout of the current socket only |
| `StallEpisode.Watchdog.AbortConn` | src/baileys/connection.ts:996-1000 | disowns the connection and clears its entry only if it is the registered one |
| `StallEpisode.Watchdog.AfterUndo` | src/baileys/connection.ts:1656-1669 | a finished rollback ends the episode, aborting the connection when its lease is owned elsewhere |
| `ConnectionsHandler.BaileysConnectionsHandler.DiscardObject` | src/baileys/connection.ts:962-990 | disowns an object once and ends its socket; a second discard changes nothing |

## Left out

- HTTP controllers, the proxy, configuration, logging, webhook bodies and retries, media, and the pass-through group, profile and presence methods: plumbing without state of its own.
- The Baileys socket, the patched keystore mutex and all cryptography: an environment that emits events and settles or parks operations.
- JSON text: stored values are typed and equal texts stand for equal values; only the idempotency key's text forms are modelled as text. Entries that do not parse are modelled for the send-stall key only.
- `drainingWebhooks`, in-flight webhook counts and the order of stall reports: bookkeeping for shutdown that no modelled decision reads.
- `importSessionWithLease`'s seeding, victim selection, cooldown and handoff writes, webhook draining at shutdown, and the heartbeat: their leases go through the modelled operations.
- ConnectionsHandler.OneLiveConnection: excludes `logoutAll`, for which `ConnectionsHandler.LogoutAllIsSafeIff` gives the exact condition.
- ConnectionsHandler.LogoutAllLeavesTwo: only the final reset of `logoutAll` is modelled; the logouts before it are ordinary ones.
- ConnectionsHandler.BaileysConnectionsHandler.DecideConnect: the options carried by a connect are reduced to veto, plain or forced restart.
- Idempotency.AtMostOneHolder: assumes no lapse under a holder and no live instance reported dead, without either of which it is false, by the two witnesses; and one live process per instance id at a time.
- Idempotency.IdempotencyKey.WithIdempotency: the class is one undisturbed call whose replies are lost at the acquire only; interleaved calls and other lost replies are the state machine's.
- Idempotency.IdempotencyKey.AcquireOrSteal: undisturbed, so the second SET NX never comes to be tried, and a read or steal that fails is not in the class; the state machine has both.
- Idempotency.IdempotencyKey.MarkIndeterminate: a script call that fails is the state machine's, not the class's.
- LeaseStore.FencedRunsIncrease: is for runs with no other INCR inside an acquire; the exact condition is `LeaseStore.IncreasingIffInDrawOrder`.
- LeaseStore.LeaseKeys.RenewLease: the TTL is not a number here, so an extension is invisible; expiry is a step that may come at any time.
- AuthState.TermReplaysOwner: field values are strings; that saveCreds and the Signal keys serialize injectively is taken as given.
- ImportCandidates.FreshCommitsCount: needs each commit to find the cursor it read; distinct candidates alone are not enough, by `ImportCandidates.CursorCanRegress`.
- QuarantineStore.ExactIffUndisturbed: is for runs without a clear; a stale writer across a clear is `QuarantineStore.WipedStrikesReturn`.
- QuarantineStore.NeverOvercounts: the count is of all strikes ever recorded, since a clear can be undone; `nextRetryAt` and whether quarantine is switched on are left out.
- QuarantineStore.LateWriterErases: a failed GET or SET is not modelled.
- SendStallStore.RecordThenRestore: is for a key nobody else writes meanwhile and that does not expire before the strike lands.
- WithTimeout.ExactlyOnce: microtasks run to exhaustion before a timer callback starts, as the runtime does; an operation that throws before returning a promise is a rejection.
- SendBreaker.InFlightIsExact: a timeout and the catch block that counts it are one step, since no timer or settlement can come between them.
- SendBreaker.BaileysConnection.AssertCanSend: the re-evaluation by `maybeReportSendStall` on a refusal is `StallEpisode`'s launch, which may come at any step there.
- SendBreaker.BaileysConnection.SendSucceeded: `lastSendCompletedAt` is left out, and the tracking of the id is `AckTracking`'s.
- SendBreaker.BaileysConnection.OnLateSettle: the tracking of the id is `AckTracking`'s, and the caller's `onLateDefinitiveFailure` is `Idempotency`'s late retraction.
- SendBreaker.BaileysConnection.OnSocketCreated: the reset of the id history and of the acknowledgement evidence is `AckTracking`'s.
- SendBreaker.BaileysConnection.ClearSendStallState: the streak's start, the silence and `restartRequested` are `StallEpisode`'s.
- SendBreaker.BaileysConnection.RecordSendTimeout: the streak's start and the report of a stall are `StallEpisode`'s.
- SendBreaker.NoLostWakeUp: stamps are positive and never go back.
- StallEpisode.StrikesAreRebuilds: assumes that no strike lands while another is outstanding, none of a session that goes on while a close is unfinished, and none of an ended session after its successor was rebuilt, each shown to be needed by a run from the start; Redis calls that succeed; and no expiry or other writer of the key.
- StallEpisode.StepKeepsBooks: is under the conditions of `StallEpisode.StrikesAreRebuilds`.
- StallEpisode.NeverMutedForGood: a veto and the withdrawal that answers it are one step.
- StallEpisode.Watchdog.AfterLookup: webhook reports and the process-wide cooldown's clock are left out; whether the cooldown slot was free is an input.
- AckTracking.LatestAckIsReported: only while neither memory has to make room; updates that carry no evidence or are not `fromMe` are no events.
- EditRegister.LastWriterWins: only while the message's position is not evicted, whose exact condition at a claim is `EditRegister.ClaimIsKeptIff`, and which `EditRegister.UnderDeliveryIsKept` gives for as long as something of it is being delivered.
- EditRegister.DeliveriesRunInOrder: a chain's rejections are swallowed by the source, so a work only settles.
- EditOrder.LongRoundTrip: integers are exact; a double loses precision above 2^53.
- EditOrder.BatchIsApplied: every edit of the batch is taken to be decryptable in it; the others claim later through the delivery path.
- EditContent.ReplaceInnerContent: messages are values, so two fields sharing one object, or a payload that contains itself, are not captured; the assignment in place is a rebuilding from the inside out.
- HistoryFrames.HistoryFrames: the byte sizes of a message and of a name entry are parameters, and names are a plain map without inherited keys; the pauses between frames are left out.
- HistoryAddressing.LidPnIndex: `chatLidPnPairs`, `unresolvedLids`, `groupNames` and `exhaustedChats` are one-pass filters and would only add easy members.
- Rebalance.EveryMoveImproves: counts are accurate and the connection moved lands on the target named.
- ClaimCycle.FairShareHolds: the number of connections held is a lower bound over the scan.
- Coordinator.NoLeaseLeaks: takes replies to be handled in the order Redis ran their commands; the TTL and other instances may take the lease at any step. It starts from an empty key, so a lease left by an earlier process under the same instance id is not considered.
- Coordinator.EveryLeaseIsAccounted: one phone of one instance, from its start; a release that Redis loses, which the source swallows, counts as sent.
- Coordinator.Coordinator.AcquireExplicitLease: is the worker's guard, the source's other role skipping it; the SET and the booking that follow are the machine's Store and `Coordinator.Coordinator.HoldLease`.
- Coordinator.Coordinator.ConnectPastDrain: options and metadata are reduced to whether the session could be read and resumed; an import is a connect that never reuses.
- Coordinator.Coordinator.RenewOne: is one phone's turn; the loop over phones and the `redisDegraded` flag that ends it are left out, and so is a discard that fails.
- ConnectionsHandler.BaileysConnectionsHandler.DeregisterLoggedOut: a logout's close never fails here, whereas a clearing of the auth state that throws leaves the disowned entry registered.
- ConnectionsHandler.BaileysConnectionsHandler.BuildSocket: `socket` says whether a connection has one, so two overlapping connect() calls of one object that each build a socket are not told apart.
- Coordinator.Coordinator.EndLogout: a logout that throws is not modelled; its release would be the same with the socket possibly kept.
- Coordinator.GivesAwayIff: is for leases with no release under way; the give-up of a failed rebuild releases the epoch its own connection carried, and its branch for a connection without an epoch is left out.
- One socket per phone across instances: not a property of the code, which keeps its sockets while Redis is unreachable.
