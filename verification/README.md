# Easy Bao server: verified models

These modules model the parts of the ride-hailing backend whose correctness depends on order:
concurrent protocols, guarded SQL updates, and hand-written in-memory indexes and caches. Each
protocol is a machine whose steps are single statements, transactions, critical sections, or
readings of the clock that a later step uses; an event list is a schedule, so what holds of all
event lists holds of all interleavings of these steps. Beside a
machine stands a class that executes one thread's statements in program order, with arbitrary
steps of others in between. In-memory components are classes whose methods are tied to
specification functions; the laws are proved about those functions. Every step also has its exact
effect stated without naming the function that computes it.

- `RefreshSessions`, `CredentialReset`, `CredentialEffects`, `CredentialService`, `LateRotation`:
  refresh-session rows, and logins, hash upgrades and refreshes against a password reset.
- `Idempotency`, `MemoryStore`: the idempotency middleware over an abstract store, and the
  in-memory store with its eviction.
- `FareRouteCache`: the bounded route cache with single flight.
- `Dispatch`, `DispatchInvariant`, `DispatchSafety`, `DispatchEffects`, `DispatchStranding`,
  `DispatchHistory`, `DispatchCrowding`, `DispatchStore`: bid sessions, offers, rides and settlements, with the direct booking path.
- `Fares`, `RidePolicy`, `RideLifecycle`, `RideCommands`, `RideService`: fare and settlement
  arithmetic, the status graph and the cancellation policy, and lifecycle commands that act on
  stale snapshots, with what each of them does when left alone.
- `Hub`, `HubDelivery`: the WebSocket hub without and with a concurrent consumer.
- `AssignmentProjection`, `ChatLimiter`, `Csv`, `DriverEarnings`: the dual index of assignments,
  the chat budgets with cleanup, the CSV reader, and the earnings summary.
- `Common`: shared datatypes and sequence filtering.

`dafny verify dfyconfig.toml` checks everything.

Some properties one would expect do not hold of the code. The model follows the code and states
the exact condition:

- A refresh checks and rotates its token by one early reading of the clock
  (server/internal/modules/auth/app/authenticate.go:182-214). When the token's grace ends between
  the reading and the rotation, both revocations of a reset pass the row over as already dead, and
  the late rotation then gives an outdated login a fresh token (`LateRotationRevivesOlderLogin`),
  contrary to the comments at authenticate.go:149-152 and otp.go:321-323.
  `SealHoldsExactlyWhenHarmless` gives the exact condition.
- A driver at the limit of five rides can still have a pending offer, because the direct
  acceptance (server/internal/modules/ride/adapter/postgres/ride_acceptance_store.go:48-111)
  does not look at offers. `FullDriversIdleExactlyWhenHarmless` says exactly when it does not.
- A repeated acceptance is recognised only among the first hundred offers of the session
  (`RepeatedAcceptance`; `CrowdedAcceptanceIsForgotten` is a run in which it is not).
- The comment at server/internal/modules/ride/domain/status.go:54-56 says that an ordinary
  cancellation is not valid after the pickup; the transition table (lines 47-48) allows it
  (`CancellationCondition`).
- An offer above 500000 centavos cannot be matched by a driver (`OfferIsMatchable`).
- A CSV text without a byte order mark whose first, unquoted header begins with that character
  loses it (`RoundTrip`).
- A memory store of capacity one can hold two entries (`OverfillCapacityOne`); every other capacity
  is respected (`Set`, `SetNX`). Eviction stops after one slot, before its target of
  nine tenths (`EvictOldest`).
- With a concurrent consumer, `deliver` can refuse a critical event although the queue has room
  (`RefusedExactlyWhen`). Its comment (server/internal/platform/ws/hub.go:149-154) also speaks of
  a hub read lock that `Publish` has released by then (line 112); the model follows the code.

## Model

| member | source | states |
|---|---|---|
| `RefreshSessions.RefreshSessionRepository.CreateSession` | server/internal/modules/auth/adapter/postgres/session_store.go:37-53 | An existing digest is a duplicate and changes nothing; otherwise exactly one fresh row is added. |
| `RefreshSessions.RefreshSessionRepository.FindActive` | server/internal/platform/database/sqlc/refresh_sessions.sql.go:30-37 | Finds exactly the unexpired rows that are unrevoked or within their rotation grace. |
| `RefreshSessions.RefreshSessionRepository.RotateSession` | server/internal/modules/auth/adapter/postgres/session_store.go:80-142 | Succeeds exactly when the old row is active, owned by the same user and the new digest is free; a failure after the update leaves the table as it was. |
| `RefreshSessions.RefreshSessionRepository.RevokeSession` | server/internal/platform/database/sqlc/refresh_sessions.sql.go:97-103 | Ends the token at once, cancels its grace, and touches no other row. |
| `RefreshSessions.RefreshSessionRepository.RevokeUserSessions` | server/internal/platform/database/sqlc/refresh_sessions.sql.go:140-146 | Visiting the rows in any order revokes exactly the revocable rows of the user. |
| `RefreshSessions.RowEvolution` | server/internal/platform/database/sqlc/refresh_sessions.sql.go:97-146 | An operation leaves an existing row alone, revokes it, or rotates it while it is active; nothing else can happen to it. |
| `RefreshSessions.NeverRevives` | server/internal/platform/database/sqlc/refresh_sessions.sql.go:97-147 | However stale the clock reading it carries, no operation revives a row that is inactive when it commits. |
| `RefreshSessions.InactiveIsFinal` | server/internal/platform/database/sqlc/refresh_sessions.sql.go:30-147 | Over any chronological history, with readings of any age, a session that is inactive once is inactive for ever. |
| `RefreshSessions.RevokeAllIsFinal` | server/internal/platform/database/sqlc/refresh_sessions.sql.go:140-147 | No session a user has at the moment of a revoke-all is ever active afterwards. |
| `RefreshSessions.CreationOpens` | server/internal/modules/auth/adapter/postgres/session_store.go:37-53 | A new session is active from its creation until it expires, for its own user, beside unchanged rows. |
| `RefreshSessions.RotationHandsOver` | server/internal/modules/auth/adapter/postgres/session_store.go:80-142 | A rotation that goes through leaves the replacement active for its lifetime and the old token active only for its grace; every other row is untouched. |
| `RefreshSessions.RevocationEnds` | server/internal/platform/database/sqlc/refresh_sessions.sql.go:97-103 | After a single revocation the token is inactive, and every other row is as before. |
| `RefreshSessions.RevocationIsFinal` | server/internal/platform/database/sqlc/refresh_sessions.sql.go:97-103 | A revoked token stays inactive over every later chronological history. |
| `RefreshSessions.RevokeAllEnds` | server/internal/platform/database/sqlc/refresh_sessions.sql.go:140-147 | A revoke-all leaves none of the user's sessions active and touches nobody else's. |
| `RefreshSessions.GraceOnlyWhenRevokedAlways` | server/internal/platform/database/sqlc/refresh_sessions.sql.go:115-125 | In every history a grace deadline exists only on a revoked row. |
| `RefreshSessions.DeadlineNeverMoves` | server/internal/platform/database/sqlc/refresh_sessions.sql.go:115-125 | The grace deadline fixed by the first rotation is kept or withdrawn by everything that follows, never extended. |
| `RefreshSessions.GraceIsBounded` | server/internal/platform/database/sqlc/refresh_sessions.sql.go:115-125 | Thirty seconds after the reading of its first rotation the old token is inactive, however often it is rotated again. |
| `CredentialReset.RunKeepsInv` | server/internal/modules/auth/app/authenticate.go:90-172 | The invariant of the login and reset protocol holds after every schedule of logins, upgrades, clock readings, checks, rotations, logouts and resets. |
| `CredentialReset.UpgradeKeepsOrder` | server/internal/modules/auth/app/authenticate.go:122-132 | A successful hash upgrade proves that no reset lies between the verified hash and the current one, so an upgrade never carries a login across a reset. |
| `CredentialReset.ResetEndsOlderLogins` | server/internal/modules/auth/app/otp.go:308-327 | In every interleaving without a harmful rotation, once a reset has succeeded no token that descends from a returned login which verified an older hash is active. |
| `CredentialReset.SealHoldsExactlyWhenHarmless` | server/internal/modules/auth/app/authenticate.go:182-214 | Older logins stay ended throughout a schedule if and only if every rotation that commits finds its token still active at that moment, or its replacement already expired, or its login not outdated by a succeeded reset. |
| `CredentialReset.RotateKeepsSeal` | server/internal/modules/auth/app/authenticate.go:182-214 | For a single rotation that commits by its old reading: older logins stay ended exactly under that condition. |
| `LateRotation.LateRotationRevivesOlderLogin` | server/internal/modules/auth/app/authenticate.go:182-214 | A reachable schedule in which a refresh read the clock within the grace of a token, a reset then succeeded and had ended the login, and the rotation gives the login an active token again. |
| `CredentialReset.VerifyAcceptsChosen` | server/internal/modules/auth/app/authenticate.go:109-115 | A password check accepts exactly the password the account's owner chose last. |
| `CredentialReset.ChosenPasswordStays` | server/internal/modules/auth/app/authenticate.go:122-132 | Until the next reset of the user no schedule, upgrades included, changes which password is accepted. |
| `CredentialReset.UpgradesNeverUndoReset` | server/internal/modules/auth/app/otp.go:314-320 | After a reset has installed a password, and whatever runs next short of another reset, a check accepts exactly that password. |
| `CredentialReset.UncontestedLoginReturns` | server/internal/modules/auth/app/authenticate.go:109-146 | The protocol is not vacuous: an undisturbed login with the right password returns an active token. |
| `CredentialEffects.VerificationDecides` | server/internal/modules/auth/app/authenticate.go:109-122 | A check with the owner's password starts the login, which remembers the stored hash; any other password starts nothing. |
| `CredentialEffects.UpgradeReplacesHash` | server/internal/modules/auth/app/authenticate.go:122-132 | An upgrade stores a hash never used before exactly when the stored one is still the one that was verified; the password stays, and other accounts and all sessions are untouched. |
| `CredentialEffects.UpgradeMovesLogin` | server/internal/modules/auth/app/authenticate.go:127-131 | After an upgrade the login expects the new hash exactly when the update was made and acknowledged. |
| `CredentialEffects.IssueOpensSession` | server/internal/modules/auth/app/authenticate.go:133-142 | Issuing opens an active session of the login's own user, beside unchanged rows, unless the digest is taken. |
| `CredentialEffects.RecheckDecides` | server/internal/modules/auth/app/authenticate.go:161-164 | The login returns exactly when the account can be read and still holds the expected hash. |
| `CredentialEffects.WithdrawalEndsSessions` | server/internal/modules/auth/app/authenticate.go:165-171 | A withdrawal that reaches the store leaves the user no active session and touches nobody else's. |
| `CredentialEffects.UndisturbedLogin` | server/internal/modules/auth/app/authenticate.go:90-147 | An undisturbed login returns exactly with the owner's password, a fresh digest, a readable account and, when the hash was upgraded, the acknowledgement of that; a lost acknowledgement makes the recheck fail. The token is then active for its lifetime. |
| `CredentialEffects.FirstRevocation` | server/internal/modules/auth/app/otp.go:311-313 | The first revocation of a reset leaves the user no active session and touches nobody else's. |
| `CredentialEffects.InstallationReplacesPassword` | server/internal/modules/auth/app/otp.go:314-320 | Only the user's account changes: the new password, under a hash never used before. |
| `CredentialEffects.SecondRevocation` | server/internal/modules/auth/app/otp.go:321-327 | The second revocation leaves the user no active session and completes the reset. |
| `CredentialEffects.CheckDecides` | server/internal/modules/auth/app/authenticate.go:182-189 | A refresh goes on exactly when its token is active at its own reading of the clock. |
| `CredentialEffects.RotationDecides` | server/internal/modules/auth/app/authenticate.go:205-219 | A refresh rotates at most once, exactly when by its own reading the token is still active and its owner's and the digest is free. |
| `CredentialEffects.UncontestedRefresh` | server/internal/modules/auth/app/authenticate.go:174-221 | An undisturbed refresh of an active token leaves the replacement active for its lifetime, for the same user and of the same login. |
| `CredentialEffects.LogoutEnds` | server/internal/modules/auth/app/authenticate.go:223-235 | A logout ends its token and no other. |
| `CredentialService.AuthService.EnsureCredentialsUnchanged` | server/internal/modules/auth/app/authenticate.go:153-172 | Passes exactly when the account can be read and still has the verified hash; otherwise a withdrawal that reaches the store leaves the user no active session. |
| `CredentialService.AuthService.Execute` | server/internal/modules/auth/app/authenticate.go:90-147 | With arbitrary steps of other threads in between, a login takes its own steps in program order and returns the token exactly when the recheck was the last of them; undisturbed, it returns exactly with the owner's password, a fresh digest, a readable account and, after an upgrade, its acknowledgement. |
| `CredentialService.AuthService.ResetPassword` | server/internal/modules/auth/app/otp.go:308-328 | With arbitrary steps of other threads in between, a reset revokes, updates and revokes again; on success, if no rotation of the history was harmful, every older login has ended. |
| `CredentialService.AuthService.Refresh` | server/internal/modules/auth/app/authenticate.go:174-221 | One reading of the clock serves the check and the rotation, with arbitrary steps of other threads in between; it succeeds exactly when both pass by that reading, and undisturbed exactly when the token is active and the digest free. |
| `Idempotency.OneHandlerAtATime` | server/internal/platform/httpx/middleware/idempotency.go:383-398 | While no lock of the key expires under its holder, at most one request of the key is between taking and releasing the lock. |
| `Idempotency.LockHoldsExactlyWhenSafe` | server/internal/platform/httpx/middleware/idempotency.go:383-398 | Every request in its critical section owns the lock throughout a run if and only if no lock of the key expires under its holder; expiry after a failed release is harmless. |
| `Idempotency.AtMostOneCacheableRun` | server/internal/platform/httpx/middleware/idempotency.go:400-446 | Unless a record expires or fails to be written, or a lock expires under its holder, at most one run of a key ends with a cacheable response, and every finished request of the key answers that record, a mismatch, a conflict, an unavailability, or an uncacheable run or panic of its own. |
| `Idempotency.LaterRequestsReplay` | server/internal/platform/httpx/middleware/idempotency.go:367-376 | Once a record is stored, every later request whose store calls work answers it, with the recorded response for the same body and a mismatch for another; the rest are turned away because the store cannot be read. |
| `Idempotency.FoundRecordIsAnswered` | server/internal/platform/httpx/middleware/idempotency.go:367-376 | In every run, a request whose look or second look finds a record is answered with it, or with a mismatch, for good. |
| `Idempotency.UndisturbedLook` | server/internal/platform/httpx/middleware/idempotency.go:367-376 | With no record a look goes on to the lock; with one it answers; a store that fails turns the request away. |
| `Idempotency.UndisturbedLock` | server/internal/platform/httpx/middleware/idempotency.go:383-398 | The lock is taken exactly when nobody holds it, and a held one is a conflict. |
| `Idempotency.UndisturbedRecheck` | server/internal/platform/httpx/middleware/idempotency.go:400-412 | After taking the lock, a record found is answered and the lock released; none found starts the handler. |
| `Idempotency.UndisturbedFinish` | server/internal/platform/httpx/middleware/idempotency.go:414-446 | A response from 200 to 299 that can be cached is stored under the request's fingerprint, then the lock is released. |
| `Idempotency.UndisturbedFailure` | server/internal/platform/httpx/middleware/idempotency.go:416 | Any other response is answered, not stored, and the lock is released. |
| `Idempotency.LockLeavesByOwnerOrExpiry` | server/internal/platform/httpx/middleware/idempotency.go:449-469 | Whatever expires or fails, a lock leaves the store only by expiring or by a release that carries its own holder's token. |
| `Idempotency.ExpiredLockAdmitsSecondHandler` | server/internal/platform/httpx/middleware/idempotency.go:383-388 | A run in which a lock expires under a slow handler and a second handler of the key runs beside it. |
| `Idempotency.Middleware.Serve` | server/internal/platform/httpx/middleware/idempotency.go:367-447 | With arbitrary steps of others in between, a request looks, locks, looks again, runs, stores a cacheable response and releases, in this order; a record found is what it answers; a lock that was taken is always released, on panic too. |
| `MemoryStore.MemoryIdempotencyStore.EvictOldest` | server/internal/platform/httpx/middleware/idempotency.go:154-177 | Drops entries that expire no later than any that stays and frees exactly one slot; does nothing when there is room already. |
| `MemoryStore.MemoryIdempotencyStore.FindOldest` | server/internal/platform/httpx/middleware/idempotency.go:160-171 | The scan finds an entry that no other entry expires before. |
| `MemoryStore.MemoryIdempotencyStore.Evict` | server/internal/platform/httpx/middleware/idempotency.go:141-177 | Runs when the store is full or a minute has passed, else changes nothing; expired entries go first, then the oldest; without capacity pressure no live entry is lost; the map ends below its bound. |
| `MemoryStore.MemoryIdempotencyStore.Get` | server/internal/platform/httpx/middleware/idempotency.go:193-211 | Returns the live value; dropping an expired entry is invisible to every later reader. |
| `MemoryStore.MemoryIdempotencyStore.Set` | server/internal/platform/httpx/middleware/idempotency.go:213-234 | The key is readable until it expires, other keys are as before or evicted, and evicted only under pressure; a capacity other than one is respected. |
| `MemoryStore.MemoryIdempotencyStore.SetNX` | server/internal/platform/httpx/middleware/idempotency.go:236-260 | A taken lock holds this value and a refused one is live and untouched; without pressure it is taken exactly when nobody can see the key; a capacity other than one is respected. |
| `MemoryStore.MemoryIdempotencyStore.DeleteIfValue` | server/internal/platform/httpx/middleware/idempotency.go:262-286 | Removes the key exactly when it still holds the given token. |
| `MemoryStore.OverfillCapacityOne` | server/internal/platform/httpx/middleware/idempotency.go:154-158 | Two writes leave two entries in a store of capacity one. |
| `FareRouteCache.OneLeaderPerKey` | server/internal/modules/ride/app/booking.go:239-261 | At every moment at most one call resolves the route of a key. |
| `FareRouteCache.CacheIsBounded` | server/internal/modules/ride/app/booking.go:302-318 | The cache never holds more than 128 entries and no key that is in flight. |
| `FareRouteCache.FlightClosedExactlyOnce` | server/internal/modules/ride/app/booking.go:268-280 | A flight is in the table while its leader computes, and is removed and closed exactly once when the leader returns or panics. |
| `FareRouteCache.AnswersWereResolved` | server/internal/modules/ride/app/booking.go:217-300 | Every successful answer was resolved for the key that was asked, and one from the cache was younger than the time to live. |
| `FareRouteCache.EnteringIsExact` | server/internal/modules/ride/app/booking.go:239-261 | A caller gets an entry younger than fifteen seconds at once, else joins the flight of the key, else leads a new one; an entry that is too old is gone. |
| `FareRouteCache.LeaderPublishes` | server/internal/modules/ride/app/booking.go:268-300 | In every run, when a leader's resolver returns, every waiter of its flight that answers answers exactly that result, a panic leaves the abort error, and the leader itself answers it unless its caller is gone. |
| `FareRouteCache.FinishPublishes` | server/internal/modules/ride/app/booking.go:268-300 | The closing section closes the flight with the result, caches a successful one as of now, and touches no other flight. |
| `FareRouteCache.WaitersAreAnswered` | server/internal/modules/ride/app/booking.go:249-254 | A waiter answers exactly what its closed flight holds, unless its caller is gone first. |
| `FareRouteCache.StoredFits` | server/internal/modules/ride/app/booking.go:302-318 | Storing keeps the bound and every other entry, except that a full cache loses exactly one, than which no other is older. |
| `FareRouteCache.BookingService.BeginResolve` | server/internal/modules/ride/app/booking.go:239-261 | The first critical section answers a usable entry, joins the flight of the key, or opens one as its leader, as one more step of the machine's run. |
| `FareRouteCache.BookingService.Await` | server/internal/modules/ride/app/booking.go:247-255 | A waiter answers exactly what its flight was closed with, or gives up because its caller is gone. |
| `FareRouteCache.BookingService.StoreFareRouteLocked` | server/internal/modules/ride/app/booking.go:302-318 | The scan evicts an entry that no other is older than, and only when the cache is full. |
| `FareRouteCache.BookingService.EndResolve` | server/internal/modules/ride/app/booking.go:268-300 | The closed flight holds what the resolver returned, or the abort error after a panic; the leader answers the same unless its caller is gone; a success is afterwards in the cache. |
| `DispatchInvariant.StepKeepsInv` | server/internal/modules/dispatch/adapter/postgres/bidding_store.go:18-538 | Every dispatch transaction and every ride step keeps the invariant over sessions, offers, rides and settlements. |
| `DispatchInvariant.AcceptOfferKeepsInv` | server/internal/modules/dispatch/adapter/postgres/offer_acceptance_store.go:86-266 | The acceptance transaction keeps the invariant across the four tables. |
| `DispatchSafety.OneBookingPerPassenger` | server/internal/modules/dispatch/adapter/postgres/bidding_store.go:60-89 | For every passenger and run, open sessions plus active rides are at most one. |
| `DispatchSafety.WonMeansOneOfferOneRide` | server/internal/modules/dispatch/adapter/postgres/offer_acceptance_store.go:153-266 | In every run a session is accepted exactly when it has exactly one accepted offer and exactly one ride, else it has neither; session, offer, ride and settlement agree on driver, target, passenger and fare; accepted, cancelled and expired sessions hold no pending offer. |
| `DispatchSafety.DriversStayWithinLimits` | server/internal/modules/dispatch/adapter/postgres/offer_acceptance_store.go:136-145 | No driver ever has more than five active rides or two pending offers on one session. |
| `DispatchSafety.FullDriversIdleExactlyWhenHarmless` | server/internal/modules/dispatch/adapter/postgres/offer_acceptance_store.go:172-187 | Throughout a run, drivers with five active rides have no pending offer anywhere if and only if no direct acceptance fills up a driver who has one. |
| `DispatchSafety.StepLeavesFullDriversIdle` | server/internal/modules/dispatch/adapter/postgres/offer_acceptance_store.go:172-187 | Step by step: every transaction except the direct acceptance keeps it, and that one keeps it exactly when the driver stays below five or has no pending offer. |
| `DispatchStranding.DirectRidesStrandAnOffer` | server/internal/modules/ride/adapter/postgres/ride_acceptance_store.go:48-111 | A reachable run in which direct acceptances leave a driver with five active rides and a pending offer. |
| `DispatchSafety.WithdrawalClearsOffersRegardless` | server/internal/platform/database/sqlc/bidding.sql.go:14-30 | Cancelling rejects exactly the session's pending offers whoever asks, also when no session row matches. |
| `DispatchStranding.DeclineStrandsAnOffer` | server/internal/platform/database/sqlc/bidding.sql.go:236-241 | A declined session can hold a pending offer. |
| `DispatchHistory.RunEvolves` | server/internal/platform/database/sqlc/bidding.sql.go:14-77 | Over any run: the terms of a session never change, session and offer statuses never leave a terminal value, offers join only open sessions, rides advance in rank, settlements are never lost or altered. |
| `DispatchHistory.RepeatedAcceptance` | server/internal/modules/dispatch/adapter/postgres/offer_acceptance_store.go:47-84 | After a successful acceptance and any later events, repeating it changes nothing, and it returns the same session, offer and ride if and only if fewer than one hundred of the session's offers were placed before. |
| `DispatchHistory.ReplayCondition` | server/internal/modules/dispatch/adapter/postgres/offer_acceptance_store.go:54-82 | A replay is answered exactly to the session's passenger, for its accepted offer among the first hundred, with a ride of the session. |
| `DispatchCrowding.CrowdedAcceptanceIsForgotten` | server/internal/modules/dispatch/adapter/postgres/offer_acceptance_store.go:54-84 | A reachable run with one hundred earlier offers: the acceptance succeeds, and whatever happens later its repetition finds nothing to replay. |
| `DispatchHistory.BiddedFaresAreWithinBounds` | server/internal/modules/dispatch/app/bidding.go:170-189 | Every ride that came out of a session has a fare within the bounds of the fare the session was opened with. |
| `DispatchEffects.OfferedFareIsOwnFare` | server/internal/modules/dispatch/app/bidding.go:110-120 | A session is priced at the passenger's own fare if there is one, else at the minimum; it is refused exactly when the minimum is not positive or the own fare lies below it. |
| `DispatchEffects.OpeningIsExact` | server/internal/modules/dispatch/adapter/postgres/bidding_store.go:50-117 | A session is opened exactly for a passenger with no unexpired open session and no ride under way, with these terms, after the expiry of the old ones. |
| `DispatchEffects.ExpiryIsExact` | server/internal/platform/database/sqlc/bidding.sql.go:280-298 | Exactly the passenger's overdue open sessions expire and exactly their pending offers are rejected. |
| `DispatchEffects.PlacementCondition` | server/internal/modules/dispatch/adapter/postgres/bidding_store.go:304-398 | An offer can be placed exactly on an open, unexpired session for anyone or for this driver, by an online driver below five rides without a pending offer there, at a fare within bounds. |
| `DispatchEffects.PlacementIsExact` | server/internal/modules/dispatch/adapter/postgres/bidding_store.go:304-398 | A placed offer is pending, at the proposed fare or the session's own; nothing else changes. |
| `DispatchEffects.AcceptanceCondition` | server/internal/modules/dispatch/adapter/postgres/offer_acceptance_store.go:86-152 | An acceptance goes through exactly for the passenger's own open, unexpired session, a pending offer on it by a driver it welcomes with a place left, a passenger without a ride, and a fare that can be settled. |
| `DispatchEffects.AcceptanceDecides` | server/internal/modules/dispatch/adapter/postgres/offer_acceptance_store.go:86-266 | An acceptance has its effect exactly under that condition and does nothing otherwise. |
| `DispatchEffects.AcceptanceIsExact` | server/internal/modules/dispatch/adapter/postgres/offer_acceptance_store.go:153-266 | Acceptance chooses the offer, rejects the session's other pending offers and, if the driver is then full, the driver's; it closes the session and opens the ride at the offer's fare. |
| `DispatchEffects.OfferWithdrawalIsExact` | server/internal/modules/dispatch/adapter/postgres/bidding_store.go:439-466 | A driver's withdrawal rejects exactly the driver's pending offers on the open session. |
| `DispatchEffects.SessionWithdrawalIsExact` | server/internal/platform/database/sqlc/bidding.sql.go:14-30 | A passenger's withdrawal closes the passenger's own open session and no other. |
| `DispatchEffects.DeclineIsExact` | server/internal/platform/database/sqlc/bidding.sql.go:236-241 | A decline closes exactly the session targeted at the driver, while it is open and unexpired. |
| `DispatchEffects.DirectAcceptanceIsExact` | server/internal/modules/ride/adapter/postgres/ride_acceptance_store.go:48-111 | A direct acceptance gives a requested ride its driver exactly when the driver is online with a place left and the fare can be settled. |
| `DispatchEffects.DirectBookingIsExact` | server/internal/modules/ride/adapter/postgres/ride_writer.go:14-91 | A direct booking asks for a ride without a driver exactly for a passenger with no unexpired open session and no ride under way, after the expiry of the old sessions. |
| `DispatchStore.Store.CreateSession` | server/internal/modules/dispatch/adapter/postgres/bidding_store.go:50-117 | Opens a session at the own or the minimum fare, expiring after the duration, exactly when the fare is valid and the passenger has no unexpired open session and no ride under way; each error has its exact condition, and on a conflict the expiry is rolled back too. |
| `DispatchStore.Store.PlaceOffer` | server/internal/modules/dispatch/adapter/postgres/bidding_store.go:304-398 | Inserts a pending offer at the proposed or the session's fare exactly when every check passes; each error has its exact condition, in the order of the checks. |
| `DispatchStore.Store.ProposeOffer` | server/internal/modules/dispatch/app/bidding.go:159-207 | Places the offer, or answers a duplicate with the driver's offer at the same fare that is pending or accepted and among the first hundred, exactly when there is one; every other error is as for placing. |
| `DispatchStore.Store.AcceptOffer` | server/internal/modules/dispatch/adapter/postgres/offer_acceptance_store.go:47-288 | Statement by statement the transaction has the whole effect or none, and returns the accepted session, offer and ride, or a replay; each error has its exact condition, in the order of the checks. |
| `DispatchStore.Store.Award` | server/internal/modules/dispatch/adapter/postgres/offer_acceptance_store.go:153-266 | The writes, one statement each, amount to the acceptance; when the fare cannot be settled everything is rolled back. |
| `DispatchStore.RejectInTwo` | server/internal/platform/database/sqlc/ride_acceptance.sql.go:567-592 | Accepting one offer and rejecting its rivals and its driver's other offers in two statements equals rejecting both groups at once. |
| `DispatchStore.Store.Replay` | server/internal/modules/dispatch/adapter/postgres/offer_acceptance_store.go:54-84 | Answers exactly when the session was won by this very, listed, offer and has a ride. |
| `DispatchStore.Store.CancelSession` | server/internal/modules/dispatch/adapter/postgres/bidding_store.go:400-437 | Two statements with anything in between: it succeeds exactly when the passenger's session is still open at the second; afterwards the session has no pending offer, and success means it is cancelled. |
| `DispatchStore.Store.CancelOffer` | server/internal/modules/dispatch/adapter/postgres/bidding_store.go:439-466 | Succeeds exactly when the driver has a pending offer on the open session, and leaves none. |
| `DispatchStore.Store.DeclineSession` | server/internal/modules/dispatch/adapter/postgres/bidding_store.go:500-538 | Declines the driver's own targeted session, touches no offer, and tells missing, foreign and closed sessions apart. |
| `Fares.BoundsAreSane` | server/internal/modules/dispatch/app/bidding.go:173-180 | The proposal bounds are positive and never empty; the lower is seven tenths of the offer, rounded, at least 5000 centavos and never above the offer; the upper is twice the offer up to 500000 centavos, never below the lower; a fare is acceptable exactly within them. |
| `Fares.RoundIsNearest` | server/internal/modules/dispatch/app/bidding.go:176-177 | Rounding gives a nearest integer, and of two the one farther from zero. |
| `Fares.ProposalCondition` | server/internal/modules/dispatch/app/bidding.go:170-189 | A proposal of zero takes the offer; on a session without a fare only the fixed bounds count. |
| `Fares.OfferIsMatchable` | server/internal/modules/dispatch/app/bidding.go:170-189 | A driver can match the passenger's offer exactly when it does not exceed 500000 centavos. |
| `Fares.DivisionGuardIsExact` | server/internal/modules/ride/domain/settlement.go:12-29 | The division guard rejects exactly the products that would overflow int64. |
| `Fares.SettlementConserves` | server/internal/modules/ride/domain/settlement.go:12-29 | A snapshot exists exactly for a positive fare, a rate up to 10000 and a product that fits; commission and payout add up to the fare, and the commission is the rounded-down share. |
| `Fares.CashIsConserved` | server/internal/modules/ride/domain/cash_settlement.go:38-86 | Received cash is change plus commission plus payout, and for undisputed outcomes the service accepts exactly what the table's constraints accept and can be settled. |
| `RidePolicy.PathsAreShort` | server/internal/modules/ride/domain/status.go:32-55 | Every transition raises the rank, so a path has at most four transitions. |
| `RidePolicy.ActiveMeansCancellable` | server/internal/modules/ride/domain/status.go:57-87 | Active, terminal, cancellable and stoppable statuses are related exactly as intended. |
| `RidePolicy.CancellationBlame` | server/internal/modules/ride/domain/cancellation.go:88-198 | An ordinary cancellation blames the passenger exactly for the passenger's own reasons and the driver exactly for a vehicle problem reported by the driver. |
| `RidePolicy.TransitionsAreSteps` | server/internal/modules/ride/domain/status.go:32-52 | An unfinished ride moves exactly one rank up or is cancelled; nothing else is allowed. |
| `RidePolicy.CancellationCondition` | server/internal/modules/ride/domain/cancellation.go:88-159 | A cancellation is valid exactly for an unfinished ride, with one of the actor's reasons and an explanation that fits; also after the pickup. |
| `RidePolicy.CancellationVerdict` | server/internal/modules/ride/domain/cancellation.go:161-198 | Who bears a valid cancellation, reason by reason. |
| `RidePolicy.EmergencyCondition` | server/internal/modules/ride/domain/status.go:57-68 | An emergency stop is valid exactly on a ride under way with a driver, for a listed emergency that is explained. |
| `RideLifecycle.FreshDecisionsCommit` | server/internal/modules/ride/app/lifecycle.go:315-376 | On an unchanged row the guarded update agrees with the decision, apart from the no-show tolerance of five seconds and the status test that taking a ride leaves to the update. |
| `RideLifecycle.WriteKeepsRow` | server/internal/platform/database/sqlc/ride_lifecycle.sql.go:104-183 | Every matching guarded update is one allowed edge, keeps the participants, and keeps arrival, waiting and blame consistent. |
| `RideLifecycle.CommitsAreEdges` | server/internal/modules/ride/app/lifecycle.go:492-564 | However stale the snapshot, a committed write is an allowed edge from the row's real status, and nothing else changes a row. |
| `RideLifecycle.RidesOnlyAdvance` | server/internal/modules/ride/app/lifecycle.go:492-564 | Over any run the rank rises with every write, so at most four writes happen. |
| `RideLifecycle.TerminalIsFinal` | server/internal/modules/ride/app/lifecycle.go:492-564 | A terminal ride is never written again. |
| `RideLifecycle.PolicySurvivesInterleaving` | server/internal/platform/database/sqlc/ride_lifecycle.sql.go:167-183 | After every run: at most four writes per ride, passenger fault only for the passenger's own reasons or a no-show committed after the full wait, driver fault only for the driver's own vehicle problem, and no write by the generic status command. |
| `RideCommands.DriverWrites` | server/internal/modules/ride/app/lifecycle.go:77-376 | An assigned driver's command goes on to its write exactly when: arriving, the ride is assigned or accepted and the driver is at the pickup; starting, it is at the pickup three seconds after arriving; completing, the ride is in transit; no-show, the waiting time is up to five seconds from its end. |
| `RideCommands.OtherWrites` | server/internal/modules/ride/app/lifecycle.go:40-490 | Acceptance goes on to its write exactly for an available driver who does not already have the ride; an emergency stop exactly for a participant of a ride under way, for a listed reason, and it is attributed to safety. |
| `RideCommands.CancellationWrites` | server/internal/modules/ride/app/lifecycle.go:378-422 | A cancellation goes on to its write exactly for a participant with an own reason, other than the no-show, and an unfinished ride; the evidence names who is to blame. |
| `RideCommands.StatusWrites` | server/internal/modules/ride/app/lifecycle.go:70-75 | The generic command goes on to a write only for a driver, not the passenger, of a ride still requested, and no such ride has a driver. |
| `RideCommands.StatusUpdateIsExact` | server/internal/platform/database/sqlc/ride_lifecycle.sql.go:277-291 | The generic update sets the end of the ride when it ends, and the canceller, reason and blame when it is cancelled. |
| `RideCommands.DriverCommandsDecide` | server/internal/modules/ride/app/lifecycle.go:77-376 | Decision, guard and update of arrival, start, completion and no-show together have exactly the command's effect, errors in their order included. |
| `RideCommands.AcceptanceDecides` | server/internal/modules/ride/app/lifecycle.go:40-68 | Acceptance has exactly its effect: repeated by the same driver it changes nothing, else it needs an available driver and a requested ride. |
| `RideCommands.CancellationDecides` | server/internal/modules/ride/app/lifecycle.go:378-422 | A cancellation has exactly its effect, errors in their order and repetition included. |
| `RideCommands.EmergencyDecides` | server/internal/modules/ride/app/lifecycle.go:428-490 | An emergency stop has exactly its effect, errors in their order and repetition included. |
| `RideCommands.StatusDecides` | server/internal/modules/ride/app/lifecycle.go:492-564 | The generic status command confirms the status that is there and refuses everything else, naming the command to use. |
| `RideCommands.AloneHasItsEffect` | server/internal/modules/ride/app/lifecycle.go:40-564 | The run of a command's steps, without interruption, ends with its answer and its effect on the row, and changes no other row. |
| `RideService.LifecycleService.Execute` | server/internal/modules/ride/app/lifecycle.go:40-564 | With arbitrary commands in between, a command reads and decides once or twice and writes at most once, at the end; undisturbed, its answer and the ride's row are exactly its effect, and a missing ride is not found. |
| `Hub.DeliveryKeepsCritical` | server/internal/platform/ws/hub.go:148-211 | A delivery keeps the queued critical events in order; refusal happens exactly when the full queue and the newcomer are all critical; a droppable newcomer replaces the oldest droppable event. |
| `Hub.DroppableKinds` | server/internal/platform/ws/hub.go:135-146 | Driver and passenger positions, chat messages, typing and presence may be dropped, nothing else. |
| `Hub.DeliveryIsExact` | server/internal/platform/ws/hub.go:148-211 | With room the event is appended; a full queue loses its oldest droppable event and gets the newcomer at its end; without one it stays as it is. |
| `Hub.Subscription.Deliver` | server/internal/platform/ws/hub.go:148-211 | The drain, search and refill loops compute the delivery: append with room, else replace the oldest droppable, else drop a droppable newcomer, else refuse. |
| `Hub.UniqueTopicsMembers` | server/internal/platform/ws/hub.go:243-258 | Exactly the non-empty topics remain. |
| `Hub.UniqueTopicsInOrder` | server/internal/platform/ws/hub.go:243-258 | Each topic remains once, in the order of first mention. |
| `Hub.CollectTopics` | server/internal/platform/ws/hub.go:243-258 | The loop with its lookup set computes those topics. |
| `Hub.Hub.Subscribe` | server/internal/platform/ws/hub.go:35-57 | A new subscription is indexed under exactly its topics, or born closed when the hub is closed. |
| `Hub.Hub.Remove` | server/internal/platform/ws/hub.go:227-233 | Removes one subscription from its topics and leaves no empty set. |
| `Hub.Subscription.Close` | server/internal/platform/ws/hub.go:223-241 | Leaves the index and closes the channel; a second call does nothing. |
| `Hub.Hub.Targets` | server/internal/platform/ws/hub.go:91-111 | Yields each member of the union of the topics once. |
| `Hub.Hub.Publish` | server/internal/platform/ws/hub.go:79-133 | Delivers once to every live subscription that shares a topic, closes exactly those that refuse, touches nobody else, and keeps the index equal to the topics of the live subscriptions. |
| `Hub.Hub.Close` | server/internal/platform/ws/hub.go:59-77 | Closes exactly the live subscriptions that have a topic. |
| `HubDelivery.StepKeepsInv` | server/internal/platform/ws/hub.go:148-241 | Every step of publishers, consumer and closers keeps the invariant of the concurrent delivery. |
| `HubDelivery.RefillNeverBlocks` | server/internal/platform/ws/hub.go:149-160 | In every schedule nothing is sent on a closed channel, the channel closes at most once, the queue stays within 64, and the next send of a refill goes through. |
| `HubDelivery.EveryEventIsSomewhere` | server/internal/platform/ws/hub.go:148-211 | In every schedule an event handed to a live subscription is in exactly one place: received, queued, in the evicting call's hands, dropped or refused; only droppable ones are dropped, only critical ones refused, and the refused call's Publish does not end before the subscription is being closed. |
| `HubDelivery.QuietDelivery` | server/internal/platform/ws/hub.go:148-211 | Undisturbed, the concurrent steps of one call do exactly what the sequential delivery does. |
| `HubDelivery.CloseTakesEffect` | server/internal/platform/ws/hub.go:223-241 | In every run a requested close happens as soon as no call is delivering, once, and takes no event away. |
| `HubDelivery.ClosedLetsPass` | server/internal/platform/ws/hub.go:154-159 | A closed subscription lets an event pass by without queueing, dropping or refusing it. |
| `HubDelivery.RefusedExactlyWhen` | server/internal/platform/ws/hub.go:161-210 | In every schedule after a failed send, what the drain loop and the consumer took makes up the full queue in order; the call is refused if and only if its event is critical and every droppable event of the queue went to the consumer, and refused despite room if and only if the consumer also got something. |
| `HubDelivery.RefusedDespiteRoom` | server/internal/platform/ws/hub.go:207-210 | For example, a consumer that empties the queue between the failed send and the drain has a critical event refused although the queue is empty. |
| `AssignmentProjection.Projection.Publish` | server/internal/modules/dispatch/app/assignment_projection.go:33-54 | Refines the single map: a match or a live status files the complete assignment, a terminal status removes it, all else is ignored. |
| `AssignmentProjection.Projection.Remember` | server/internal/modules/dispatch/app/assignment_projection.go:88-109 | Refines the replacement of the driver's slice in the single map. |
| `AssignmentProjection.Projection.Upsert` | server/internal/modules/dispatch/app/assignment_projection.go:130-139 | Moves a ride between drivers with both indexes in step. |
| `AssignmentProjection.Projection.ForDriver` | server/internal/modules/dispatch/app/assignment_projection.go:66-83 | After any operations, exactly the single map's assignments of the driver, in ascending order of ride ids. |
| `AssignmentProjection.Projection.ForRide` | server/internal/modules/dispatch/app/assignment_projection.go:56-64 | After any operations, exactly the single map's entry. |
| `AssignmentProjection.RememberReplacesSlice` | server/internal/modules/dispatch/app/assignment_projection.go:85-109 | After Remember a named ride is as last named, and an unnamed one remains, unchanged, exactly when another driver owns it. |
| `AssignmentProjection.MatchFiles` | server/internal/modules/dispatch/app/assignment_projection.go:38-43 | A match files the ride under its driver, "assigned" unless it says otherwise, when ride, driver and passenger are all named; nothing else changes. |
| `AssignmentProjection.StatusChangeFiles` | server/internal/modules/dispatch/app/assignment_projection.go:44-53 | A terminal status removes the ride, any other refiles it when all three are named, an empty one and other events change nothing. |
| `AssignmentProjection.ReplayIsKeyed` | server/internal/modules/dispatch/app/assignment_projection.go:111-139 | No run of operations files an assignment under another ride's key, an empty key, or without a driver. |
| `ChatLimiter.CleanupIsInvisible` | server/internal/modules/chat/transport/ws/chat_limiter.go:44-126 | When no window or cooldown exceeds five minutes, every call of every chronological sequence gets the answer a limiter without cleanup would give. |
| `ChatLimiter.AtMostTwiceTheLimit` | server/internal/modules/chat/transport/ws/chat_limiter.go:44-118 | No closed interval as long as its window sees more than twice the limit of messages, or of typing states, admitted for a room and sender. |
| `ChatLimiter.RefusedForReason` | server/internal/modules/chat/transport/ws/chat_limiter.go:44-118 | A call is refused only when as many as the limit were admitted in the window before it, or when it repeats the last admitted typing state within the cooldown, which always is refused. |
| `ChatLimiter.DefaultMessages` | server/internal/modules/chat/transport/ws/chat_limiter.go:32-42 | As configured: at most twenty messages in five seconds, and none refused unless ten were admitted in the five seconds before it. |
| `ChatLimiter.DefaultTyping` | server/internal/modules/chat/transport/ws/chat_limiter.go:32-42 | As configured, the same for typing states, except that a repetition within two seconds is always refused. |
| `ChatLimiter.KeysAreDistinct` | server/internal/modules/chat/transport/ws/chat_limiter.go:57 | Two rooms or senders never share a budget, as long as no sender's name has a colon. |
| `ChatLimiter.IdleBudgetsGo` | server/internal/modules/chat/transport/ws/chat_limiter.go:52-55 | Every 128th call leaves exactly the budgets called in the last five minutes; the others take none away. |
| `ChatLimiter.DefaultIsBounded` | server/internal/modules/chat/transport/ws/chat_limiter.go:32-42 | The configured windows and cooldown satisfy the bound. |
| `ChatLimiter.Limiter.AllowMessage` | server/internal/modules/chat/transport/ws/chat_limiter.go:44-74 | Answers as specified for the calls so far. |
| `ChatLimiter.Limiter.AllowTyping` | server/internal/modules/chat/transport/ws/chat_limiter.go:76-118 | Answers as specified for the calls so far, coalescing repeated states and counting only what passes. |
| `ChatLimiter.Limiter.Cleanup` | server/internal/modules/chat/transport/ws/chat_limiter.go:120-126 | Removes exactly the budgets idle for more than five minutes. |
| `Csv.ParseCsv` | web/admin/src/lib/server/csv.ts:1-45 | The character loop computes the specified reading of every text. |
| `Csv.ReadRows` | web/admin/src/lib/server/csv.ts:8-39 | Printed rows are read back, blank ones skipped, from any state at a line start. |
| `Csv.ReadsBack` | web/admin/src/lib/server/csv.ts:1-39 | Any rows, printed with any quoting and line breaks that section 2 of RFC 4180 allows, are read back as the rows that are not blank, an unprotected leading mark aside. |
| `Csv.RoundTrip` | web/admin/src/lib/server/csv.ts:1-45 | A table with distinct headers and full rows survives printing and parsing if and only if it has no rows below the header, or no row is blank and the first header does not expose a byte order mark. |
| `Csv.ToRecordIsRecord` | web/admin/src/lib/server/csv.ts:41-44 | With distinct headers a record holds exactly the row's cells under their headers. |
| `Csv.LastHeaderCounts` | web/admin/src/lib/server/csv.ts:41-44 | For any headers and cells: the last of equal headers counts, a missing cell is empty, a surplus one is left out. |
| `Csv.ReturnsAreSkipped` | web/admin/src/lib/server/csv.ts:31 | Outside quotes a carriage return counts for nothing, wherever it stands. |
| `Csv.OpenQuoteEnds` | web/admin/src/lib/server/csv.ts:8-39 | A quote still open at the end of the text is closed there. |
| `DriverEarnings.SummarizeDriverEarnings` | server/internal/modules/ride/app/driver_earnings.go:9-55 | Every figure is the int64 total and the count over its own span of days: today, the week from Monday, the month, seven weekdays and five month weeks. |
| `DriverEarnings.EarningsAreConserved` | server/internal/modules/ride/app/driver_earnings.go:33-53 | Weekday buckets add up to the week, month weeks to the month, in amounts and trips, and today equals today's weekday bucket. |
| `DriverEarnings.WeekStartIsMonday` | server/internal/modules/ride/app/driver_earnings.go:15-16 | The week start is the last Monday that is not after today. |
| `DriverEarnings.TruncationMatters` | server/internal/modules/ride/app/driver_earnings.go:16 | With a Euclidean remainder the week would start after today except on Mondays. |
| `DriverEarnings.MonthOfDay` | server/internal/modules/ride/app/driver_earnings.go:35-41 | A day within a month's span has a date in that month, so its bucket index is its distance from the first in weeks. |
| `DriverEarnings.DayNumbersAreUnique` | server/internal/modules/ride/app/driver_earnings.go:67-69 | Comparing dates compares days. |
| `DriverEarnings.DayNumberIsGregorian` | server/internal/modules/ride/app/driver_earnings.go:33-53 | Day numbers follow the closed form of the Gregorian calendar. |
| `DriverEarnings.EpochIsThursday` | server/internal/modules/ride/app/driver_earnings.go:15-16 | The numbering is anchored: 1 January 1970 is day 719162, a Thursday. |
| `DriverEarnings.TotalsAdd` | server/internal/modules/ride/app/driver_earnings.go:23-53 | A span's total over one entry is its payout if it was completed in the span, and totals and counts add over entries. |

## Left out

- Access tokens, password hashing, codes, account roles and suspension: a hash is a number, and installed hashes are fresh.
- RefreshSessions: cleanup of old rows.
- Idempotency: requests without a key, key validation, body limits, headers and encoding; the machine's store is abstract, because eviction in the memory store may drop a live lock.
- Idempotency.AtMostOneCacheableRun: assumes that no record of the key expires or fails to be written and that no lock of it expires under its holder, as the promise itself does.
- The Redis store: its scripts are the atomic steps of the abstract store.
- FareRouteCache: the pass-through when no route provider is configured, coordinate rounding and the resolver itself.
- Dispatch: notification rows, booking references, addresses and driver details, and foreign keys; every transaction is one atomic step with a reading of the clock of any age, so PostgreSQL locking, isolation and deadlock freedom are not modelled.
- Dispatch: ride steps after acceptance are any allowed transition; who may take them is the subject of RideLifecycle.
- DispatchStore.Store.PlaceOffer: the service's reading of the session and the insertion are one step, which is sound because the terms it checks never change (`RunEvolves`).
- DispatchStore.Store.Replay: the page of one hundred offers is a condition on the offer's rank, not a loop over rows.
- Fares: 0.70 times the fare is computed exactly over the reals, not in binary floating point.
- Wallet ledgers, refunds, ratings, profiles, documents, storage, rate limiting and circuit breaking: not modelled.
- RideLifecycle: distances and location freshness are one truth value per decision; event rows and published events are not modelled.
- Hub: trimming of topic names, logging, and sockets; publishing is modelled for an arbitrary topic list instead of the scope that yields it.
- HubDelivery: one subscription; the order in which a concurrent consumer receives events is not claimed, because draining can reorder them.
- AssignmentProjection: decoding of payloads and normalisation of statuses; whether the projection agrees with the ride store, which it only hints at.
- ChatLimiter: a budget is a value in the map, not a pointer; the nil limiter, which allows everything.
- Csv: characters are Unicode scalar values, not UTF-16 units; no special character lies outside the basic plane.
- DriverEarnings: dates are given in local time of a zone with a fixed offset, from year 1 on; formatting of dates.
- HTTP handlers, routing, JSON, validation of identifiers, logging, timeouts and cancellation, except where a step says so.
