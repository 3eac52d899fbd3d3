# Verified model of the auth, user and gateway services

This project models, in Dafny, the stateful core of a NestJS platform made of an API gateway, an auth
service and a user service, and proves what its handlers keep over every run:

- **Refresh-token rotation.** The two tables of the auth service, each handler as one atomic step
  (`AuthHandlers`), the service as an object whose methods are proved against those steps
  (`AuthService`), arbitrary sequences of calls (`AuthHistory`) and who changes and is told what in them
  (`AuthEffects`), and the same handlers cut into their SQL statements and clock readings, with any number of
  them interleaving under row locks and unique indexes (`AuthMachine`, `AuthInvariant`, `AuthProtocol`,
  `StatementEffects`), with the transaction of a refresh, races of refreshes and of registrations, and the
  many-row revocations on top (`RefreshTransaction`, `RefreshRace`, `Registration`, `MassRevocation`,
  `Witnesses`).
- **Access-token revocation.** The expiring Redis blacklist, the guard and the strategy, the refinement of a
  blacklist that never forgets, and both together with the auth service (`Blacklist`, `Gateway`, `Admission`).
- **Operations across services.** Registration with compensation, removal and update over a bus that loses,
  delays and repeats messages (`Sagas`), runs in which they succeed (`SagaRuns`), the profile table
  (`Profiles`, `UsersService`), and interleaved profile creation (`ProfileRace`).
- **Helpers.** Durations, addresses, pages and flattened validation errors (`Duration`, `Emails`, `Tokens`,
  `Pagination`, `ValidationErrors`).

## How to read the model

- A token is represented by what was signed and with which secret, a digest by its preimage: signing and
  SHA-256 are deterministic and injective. `iat` and `exp` are whole seconds (sections 4.1.4 and 4.1.6 of
  RFC 7519); clock readings are milliseconds of one clock that never goes back, shared by all services.
- bcrypt's comparison is an arbitrary predicate in `Config`; the digest of a new password, the value of
  `gen_random_uuid()` and the passing of time are parameters of the step that uses them.
- `findOne`, the query builder and the inner join hide soft-deleted rows. An INSERT is atomic with its
  unique-index check. SELECT ... FOR UPDATE waits for and takes the token row and the user row together.
  A one-row UPDATE waits for its row. A many-row UPDATE fixes its rows when it starts, locks them one by
  one and takes effect when it ends. The writes of an open transaction are its own: it sees them, nobody else
  does, its COMMIT publishes them and any other end loses them. An insert pending in a transaction makes other
  inserts of the same digest wait.
- The statement-grain machine runs register, login, refresh, logout, deactivate and validate. Nothing in it
  changes a password or a role; `changePassword` and `ensureAdmin` appear at handler grain only.
- A schedule is any sequence of actions; an action that is not possible in a state leaves it unchanged. A
  handler may fail at any statement (`Crash`), which releases its locks and discards its transaction.

## What turned out not to hold

Each of these has a run or an input that shows it and a theorem that says exactly when it happens.

- Two access tokens can be the same string: `issueTokens` reads the clock once per signature, so two
  issuances to one user may sign their access tokens in one second and their refresh tokens in different
  ones (`AuthProtocol.IssuedTokensAreDistinct`, `Witnesses.AccessTokensCanCoincide`). Revoking one of them at
  the gateway revokes the other.
- A refresh in the second in which its token was signed signs the same token again and is answered with a
  server error (`AuthHandlers.SameSecondRefreshFails`). In general an issuance is refused exactly if the account
  has been issued a token in the second of its own (`AuthProtocol.IssuanceRefusedIff`).
- A registration can report a conflict with itself (`Witnesses.RegistrationCanConflictWithItself`): of racing
  registrations exactly one gets the address, and that one reports a conflict too exactly if its account has
  been issued a token in the second in which it signed its own (`Registration.OneRegistrationWins`).
- Ending all sessions, at statement grain, misses the rows stored after its UPDATE started, and only those,
  unless another call still under way or made later revokes them
  (`MassRevocation.MassRevocationRevokesExactly`). So a deactivated account can keep an unrevoked row
  (`Witnesses.LateLoginLeavesUnrevokedRow`), stored by a registration or login that had read the account
  before it was switched off (`MassRevocation.StragglersReadBefore`); no refresh ever accepts it
  (`AuthProtocol.DeactivationBeatsRefresh`).
- A login that has read an account which is then deactivated still opens a session: it does what the atomic
  login does exactly if the account is live and active at its INSERT (`AuthProtocol.LoginIsAtomicAtInsertIff`).
- A profile creation can fail on its second look-up (`ProfileRace.RemovalCanFailACreate`), exactly if the row
  its INSERT met has been removed by then and none inserted since (`ProfileRace.FailedIffRowVanished`).
- A revocation at the gateway comes too late for a request whose blacklist look-up is done and whose token has
  still to be verified: such a request is admitted exactly if the token was not revoked when it arrived
  (`Gateway.AnsweredExactly`).
- For a lifetime string outside digits-and-unit the blacklist falls back to one day, and the millisecond
  and second readings disagree (`Duration.ReadingsAgreeIffMatched`,
  `Gateway.UnmatchedLifetimeIsSafeUpToADay`).
- Two validation errors can share a key, and one is lost, exactly if two nodes with constraints print to the
  same path (`ValidationErrors.NothingIsLostIff`); names with dots make that possible
  (`ValidationErrors.DottedNamesCollide`). It takes nested validation, which no DTO of the services asks for.

## Model

| member | source | states |
|---|---|---|
| AuthProtocol.SingleUse | apps/auth-service/src/auth/auth.service.ts:115-137 | of any number of refresh calls presenting one token, interleaved statement by statement with each other and with registrations, logins, logouts, deactivations and validations, at most one ever returns tokens |
| RefreshRace.ExactlyOneRefreshWins | apps/auth-service/src/auth/auth.service.ts:101-147 | from any reachable state in which a token can be traded in: of the refreshes of it that have not answered by then or come later, exactly one returns tokens and all others are turned away, if none of them is cut short or meets a taken digest, no other such call can revoke the token and it does not expire meanwhile |
| RefreshRace.LoneRefreshSucceeds | apps/auth-service/src/auth/auth.service.ts:101-147 | from any state in which a token can be traded in, its rows are free and its successor's digest is not taken, there is a schedule of a refresh alone that returns tokens |
| RefreshRace.FailedRefreshCanBeRetried | apps/auth-service/src/auth/auth.service.ts:115-146 | after a refresh that failed past its checks, by a crash or at the unique index, the same token presented again on its own is traded in, while it verifies and its successor's digest is not taken |
| AuthProtocol.RotationLineage | apps/auth-service/src/auth/auth.service.ts:115-146 | in every reachable state refresh tokens form disjoint simple chains: two chains share nothing or one extends the other, and only the end of a chain can be unrevoked |
| AuthProtocol.LineageIsSimpleChain | apps/auth-service/src/auth/auth.service.ts:136-144 | a chain starts at a login or registration, each token replaced the one before and was stored later, all belong to one user, all but the last are revoked |
| AuthProtocol.AtMostOneSuccessor | apps/auth-service/src/auth/auth.service.ts:124-144 | a token has at most one successor, and only once it is revoked |
| AuthProtocol.DeactivationBeatsRefresh | apps/auth-service/src/auth/auth.service.ts:115-134 | from the moment the write isActive = false is visible, no refresh issues tokens for the account, in any interleaving |
| AuthProtocol.NoRefreshReturnsAfterDeactivation | apps/auth-service/src/auth/auth.service.ts:211-220 | a refresh call that returns tokens for a switched-off account had been issued them before the write |
| AuthProtocol.DeactivatedIsDead | apps/auth-service/src/auth/auth.service.ts:219-226 | a deactivation that answered Ack left the account inactive and soft-deleted for good |
| AuthProtocol.NothingIsUndone | apps/auth-service/src/auth/auth.service.ts:136-160 | over every schedule rows stay, owners and addresses stay, revocation, deactivation and soft deletion are never reversed |
| MassRevocation.MassRevocationRevokesExactly | apps/auth-service/src/auth/auth.service.ts:157-160 | once the UPDATE of a logout of all sessions or of a deactivation has ended, a row of the user is revoked if it was stored when the UPDATE started, and only then, unless another call that had not answered by that time can revoke it |
| MassRevocation.EndedSessionsStayEnded | apps/auth-service/src/auth/auth.service.ts:157-160 | no token stored when such an UPDATE started is traded in after it has ended, in any continuation of any schedule |
| MassRevocation.StragglersReadBefore | apps/auth-service/src/auth/auth.service.ts:211-226 | whatever stores a row for an account after isActive = false is visible is a registration or login that had read the account before that |
| AuthProtocol.RevokedIsFinal | apps/auth-service/src/auth/auth.service.ts:124-137 | from any state in which a row is revoked, no statement of any schedule replaces its token |
| RefreshTransaction.OnlyTheTransactionSeesItsWrites | apps/auth-service/src/auth/auth.service.ts:136-144 | between its UPDATE and its COMMIT a refresh sees the presented token revoked, and at the end its successor stored, while the tables everybody else sees have the one unrevoked and the other absent |
| RefreshTransaction.OnlyCommitPublishes | apps/auth-service/src/auth/auth.service.ts:115-146 | of all that can happen to a refresh only its COMMIT changes the visible tables, and it makes them exactly what the transaction saw |
| RefreshTransaction.FailureRollsBack | apps/auth-service/src/auth/auth.service.ts:115-146 | a refresh that fails after its checks, by a crash or at the unique index, takes its revocation back and frees both rows: its token can be traded in exactly if the successor's digest is not taken then |
| RefreshTransaction.StoredIffReturned | apps/auth-service/src/auth/auth.service.ts:115-146 | over every schedule a call has stored a refresh token, and only one, exactly when it has returned it |
| AuthProtocol.CommitIsAtomicRefresh | apps/auth-service/src/auth/auth.service.ts:101-147 | interleaved refreshes are linearisable: at commit, tables and reply are those of the atomic handler on the tables of that moment |
| AuthProtocol.LoginIsAtomicAtInsertIff | apps/auth-service/src/auth/auth.service.ts:73-99 | a login about to store a free digest does there what the atomic handler does exactly if the account it read is still live and active |
| AuthProtocol.LogoutWithTokenIsAtomic | apps/auth-service/src/auth/auth.service.ts:150-155 | logout with a token is one statement with the effect of the atomic handler |
| AuthProtocol.IssuedTokensAreDistinct | apps/auth-service/src/auth/auth.service.ts:281-304 | in the machine, where roles do not change, all refresh tokens of a run are distinct, none is the token it replaced, and two for one user differ in iat; access tokens coincide exactly for one user in one second, which needs an issuance that straddles a second |
| AuthProtocol.AddressesStayUnique | apps/auth-service/src/database/migrations/1720000000000-AuthPartialUniqueAndTokenIndexes.ts:8-10 | at most one account that is not soft-deleted holds an address, at every point of every schedule |
| AuthInvariant.ScheduleKeeps | apps/auth-service/src/auth/auth.service.ts:101-147 | the inductive invariant of tables, locks, in-flight handlers and history holds after every schedule |
| StatementEffects.AccountsAtStatement | apps/auth-service/src/auth/auth.service.ts:53-62 | over any interleaving no statement changes anything of an account that is there but, in its own deactivation, its standing; none adds one but the INSERT of a registration of a free address, as an active, unverified member with the digest given |
| StatementEffects.TokensAtStatement | apps/auth-service/src/auth/auth.service.ts:149-163 | no statement changes a token row that is there but to take it out of use: at the COMMIT of the refresh that presented it, its owner's logout or deactivation; none adds one but those that hand its token out, for the account it speaks for, to expire after the configured time |
| StatementEffects.RefreshAnswersAtomically | apps/auth-service/src/auth/auth.service.ts:101-147 | at whichever statement a refresh answers, with success or any refusal, tables and answer are those of the atomic handler at that moment |
| StatementEffects.RefusalsAreAtomic | apps/auth-service/src/auth/auth.service.ts:46-99 | so are those of a login or registration refused before it issues anything, a deactivation that finds nobody and a validation |
| StatementEffects.SessionsDescribeTheRow | apps/auth-service/src/auth/auth.service.ts:266-312 | in any interleaving only the INSERT of a registration or login and the COMMIT of a refresh hand out a session, and it shows address, role and verification as the account's row has them, in the view and in the claims of both tokens |
| StatementEffects.UpdatesAcknowledge | apps/auth-service/src/auth/auth.service.ts:149-163 | a logout or deactivation whose last UPDATE has ended is acknowledged |
| StatementEffects.WaitsOnlyForLocks | apps/auth-service/src/auth/auth.service.ts:115-121 | no call is held up by anything but a locked row: while the row its statement needs is free it goes on |
| RefreshTransaction.LockedRowsStay | apps/auth-service/src/auth/auth.service.ts:115-121 | from its SELECT ... FOR UPDATE to its end, over any schedule of the other calls, the token row and the user row stay as a refresh has read them |
| Registration.OneRegistrationWins | apps/auth-service/src/auth/auth.service.ts:46-71 | from any reachable state in which an address is free: of the registrations of it that have not run their INSERT by then or come later, with logins, other deactivations and everything else going on, exactly one owns the address and all others report a conflict; the owner returns its session, or a conflict exactly if at its INSERT its account has been issued a token in the second in which it signed its own |
| AuthProtocol.DigestTakenIff | apps/auth-service/src/database/migrations/1710000000000-CreateAuthSchema.ts:43-45 | the digest any issuance is about to store is taken exactly if the history has a token of its account signed in the same second |
| AuthProtocol.IssuanceRefusedIff | apps/auth-service/src/auth/auth.service.ts:281-304 | so an issuance is refused, with a conflict to a registration and a server error to a login or refresh, exactly in that case |
| Witnesses.AccessTokensCanCoincide | apps/auth-service/src/auth/auth.service.ts:281-295 | a schedule in which two issuances hand out the same access token |
| Witnesses.RegistrationCanConflictWithItself | apps/auth-service/src/auth/auth.service.ts:61-70 | a schedule in which the only registration of an address reports a conflict although its account exists |
| Witnesses.LateLoginLeavesUnrevokedRow | apps/auth-service/src/auth/auth.service.ts:211-227 | a schedule in which a deactivated account ends with an unrevoked token row |
| AuthHandlers.RefreshAllOrNothing | apps/auth-service/src/auth/auth.service.ts:101-147 | refresh succeeds exactly for a refreshable token; then one row is revoked, one fresh row of the same user appears and nothing else changes; otherwise nothing changes at all |
| AuthHandlers.SameSecondRefreshFails | apps/auth-service/src/database/migrations/1710000000000-CreateAuthSchema.ts:43-45 | refreshing in the second of signing hits the unique digest index: server error, tables unchanged |
| AuthHandlers.RefreshTokensDifferBySecond | apps/auth-service/src/auth/auth.service.ts:281-295 | two tokens of one kind for one identity are equal exactly when signed in the same second |
| AuthHandlers.SessionIsUsable | apps/auth-service/src/auth/auth.service.ts:266-312 | an issued access token names the account and verifies until its lifetime ends; the refresh token can be traded in while it verifies, unless its successor digest is taken |
| AuthHandlers.LoginIff | apps/auth-service/src/auth/auth.service.ts:73-99 | login succeeds exactly for the right password of an active live account whose next digest is free, speaks for that account, and otherwise changes nothing |
| AuthHandlers.RegisterThenLogin | apps/auth-service/src/auth/auth.service.ts:46-71 | a new account is an active unverified member, and any spelling of its address with its password logs in to it from the next second on |
| AuthHandlers.RegistrableIffFree | apps/auth-service/src/auth/auth.service.ts:46-71 | registration with a fresh id succeeds exactly when no account that is not deleted holds the normalised address |
| AuthHandlers.DeactivateKills | apps/auth-service/src/auth/auth.service.ts:211-227 | deactivation answers Ack exactly for accounts not yet deleted, leaves them dead with all rows revoked, and changes nobody else |
| AuthHandlers.DeactivationFreesTheAddress | apps/auth-service/src/auth/auth.service.ts:211-227 | right after a deactivation its address can be registered again |
| AuthHandlers.ChangePasswordIff | apps/auth-service/src/auth/auth.service.ts:184-209 | a password change needs the current password, replaces it, revokes every row of the account and touches nobody else |
| AuthHandlers.LogoutRevokesExactly | apps/auth-service/src/auth/auth.service.ts:149-163 | exactly which rows a logout revokes, with and without a token, and that nothing else changes |
| AuthHandlers.EnsureAdminMakesAdmin | apps/auth-service/src/auth/auth.service.ts:229-264 | start-up leaves the configured address with a live administrator unless there is nobody to promote and no password, and leaves all others alone |
| AuthEffects.AccountEffects | apps/auth-service/src/auth/auth.service.ts:165-264 | what any call makes of any account there is: address and verification never change, the password only by its owner's password change, the role only by an ensureAdmin of its address, the standing only by its own deactivation |
| AuthEffects.AccountsCreated | apps/auth-service/src/auth/auth.service.ts:53-60 | an account appears exactly by a registration of a free address, as an active unverified member, or by an ensureAdmin of a free address with a password, as an active verified administrator, each with the digest given |
| AuthEffects.TokenEffects | apps/auth-service/src/auth/auth.service.ts:136-163 | what any call makes of any token row: it keeps owner and expiry, and is revoked exactly by being traded in, its owner's logout, password change or deactivation; a row appears exactly with the session that hands its token out, unrevoked, to expire when its lifetime after storing is over |
| AuthEffects.AnswersDescribeTheRow | apps/auth-service/src/auth/auth.service.ts:165-174 | every session and every validation is for an account its request is entitled to, live and active then, and shows id, address, role, activity and verification of its row; the tokens of a session carry them as claims, with the configured secrets and lifetimes |
| AuthEffects.RegisterExactly | apps/auth-service/src/auth/auth.service.ts:46-71 | a registration leaves every row there is as it was; with a session it adds one account and one token row; without one it answers a conflict and changes nothing, unless its account went in and its digest was taken |
| AuthEffects.RefusalsExactly | apps/auth-service/src/auth/auth.service.ts:73-95 | which of unauthorized, forbidden and not found a login, validation, password change or deactivation answers, each exactly when |
| AuthEffects.RefreshRefusalsExactly | apps/auth-service/src/auth/auth.service.ts:104-134 | a refresh is unauthorized exactly if the token does not verify, has no row of a live account, is revoked or has expired, and forbidden exactly if only the account's activity is missing |
| AuthEffects.AccessTokensNeverRefresh | apps/auth-service/src/auth/auth.service.ts:104-113 | an access token is turned away by refresh whatever the tables hold, even if both secrets are the same |
| AuthEffects.AdminsAreEnsured | apps/auth-service/src/auth/auth.service.ts:229-264 | over every run an account is an administrator exactly if an ensureAdmin of its address promoted or created it, and nobody else is vouched for or handed a session as one |
| AuthService.AuthService.Register | apps/auth-service/src/auth/auth.service.ts:46-71 | the statements of register take the two tables, and answer, as the atomic specification does |
| AuthService.AuthService.Login | apps/auth-service/src/auth/auth.service.ts:73-99 | the statements of login take the tables, and answer, as the atomic specification does |
| AuthService.AuthService.Refresh | apps/auth-service/src/auth/auth.service.ts:101-147 | revoke, insert and rollback take the tables, and answer, as the atomic specification does |
| AuthService.AuthService.Logout | apps/auth-service/src/auth/auth.service.ts:149-163 | the UPDATE statements take the tables, and answer, as the atomic specification does |
| AuthService.AuthService.Validate | apps/auth-service/src/auth/auth.service.ts:165-174 | the read answers as the specification does |
| AuthService.AuthService.ChangePassword | apps/auth-service/src/auth/auth.service.ts:184-209 | save and revoke take the tables, and answer, as the atomic specification does |
| AuthService.AuthService.Deactivate | apps/auth-service/src/auth/auth.service.ts:211-227 | switch off, revoke and soft-remove take the tables, and answer, as the atomic specification does |
| AuthService.AuthService.EnsureAdmin | apps/auth-service/src/auth/auth.service.ts:229-264 | promotion or creation takes the tables where the atomic specification does |
| AuthService.AuthService.IssueTokens | apps/auth-service/src/auth/auth.service.ts:266-312 | signs both tokens and stores the digest, or stores nothing when the digest is taken; keeps the table invariant |
| AuthStore.InsertTokenKeeps | apps/auth-service/src/auth/auth.service.ts:297-304 | a stored digest is that of a refresh token of the row's user whose own expiry is not later than the row's |
| AuthStore.FindByEmailIsTheHolder | apps/auth-service/src/database/migrations/1720000000000-AuthPartialUniqueAndTokenIndexes.ts:8-10 | under the partial unique index the look-up by address finds the one live row |
| AuthHistory.RunKeeps | apps/auth-service/src/auth/auth.service.ts:46-264 | the table invariant and the growth order hold over every sequence of calls |
| AuthHistory.EveryReachableState | apps/auth-service/src/auth/auth.service.ts:105-127 | in every reachable state live addresses are unique and no stored token that still verifies has an expired row |
| AuthHistory.MassRevocationIsFinal | apps/auth-service/src/auth/auth.service.ts:184-227 | after a logout of all sessions, a password change or a deactivation that answered Ack, no refresh token the user held before ever succeeds, in any continuation |
| AuthHistory.DeactivationIsFinal | apps/auth-service/src/auth/auth.service.ts:211-227 | a dead account id never again registers, logs in, refreshes or validates, in any continuation |
| AuthHistory.ValidUntilDeactivated | apps/auth-service/src/auth/auth.service.ts:165-174 | an account in service is vouched for after any sequence of calls exactly if none of them was its deactivation, and then with the address, role and standing its row has by then; otherwise the answer is unauthorized |
| AuthHistory.SessionConservation | apps/auth-service/src/auth/auth.service.ts:136-163 | how each call moves each user's number of unrevoked tokens: refresh not at all, logout with a token only the caller's and by at most one, issuance by one |
| AuthHistory.SessionsNeverExceedOpenings | apps/auth-service/src/auth/auth.service.ts:136-163 | over every run a user has at most as many unrevoked tokens as registrations and logins since all sessions were last ended |
| AuthHistory.NeverReissued | apps/auth-service/src/database/migrations/1710000000000-CreateAuthSchema.ts:43-45 | a stored refresh token is never handed out again in any continuation |
| AuthStore.RowOutlivesToken | apps/auth-service/src/auth/auth.service.ts:289-301 | the row stored for a token is its user's, unrevoked, and expires never before the JWT does, and later by less than a second plus the delay between signing and storing |
| Duration.PrintedDurationParses | libs/common/src/utils/duration.util.ts:15-23 | reading a printed amount and unit gives back that amount and that unit |
| Duration.PrintedDurationReadings | libs/common/src/utils/duration.util.ts:25-45 | the millisecond and the second table each read a printed duration as amount times unit |
| Duration.ReadingsInNumbers | libs/common/src/utils/duration.util.ts:1-45 | in numbers: what n seconds, minutes, hours and days are in milliseconds and in seconds, and both fallbacks |
| Duration.MatchedIffPrinted | libs/common/src/utils/duration.util.ts:15-23 | the pattern matches exactly the strings that are zeros before a printed number before one of the four units, and reads that number and unit |
| Duration.ReadingsAgreeIffMatched | libs/common/src/utils/duration.util.ts:25-45 | the millisecond reading is 1000 times the second reading exactly when the pattern matches |
| Emails.NormalizeIdempotent | apps/user-service/src/users/users.service.ts:36-41 | lower-casing and trimming twice is the same as once |
| Emails.NormalizeExactly | apps/auth-service/src/auth/auth.service.ts:46-48 | the normalised address is the input lower-cased letter by letter, in order, without the blanks at both ends: it has no upper-case letter and no blank at either end |
| Emails.SpellingsNormalizeAlike | apps/auth-service/src/auth/auth.service.ts:73-79 | spellings that differ only in case and surrounding blanks normalise alike |
| Gateway.ExpiringRefinesPermanentIff | apps/api-gateway/src/auth/token-blacklist.service.ts:14-25 | a gateway with the expiring blacklist answers every request of every run, its look-up and its verification at different moments, like one that never forgets, exactly when the TTL is at least the token lifetime |
| Gateway.ConfiguredBlacklistNeverForgetsTooSoon | apps/api-gateway/src/auth/token-blacklist.service.ts:14-20 | for every configured lifetime of digits and a unit the two gateways answer alike |
| Gateway.UnmatchedLifetimeIsSafeUpToADay | libs/common/src/utils/duration.util.ts:36-45 | for any other lifetime string they do exactly when the JWT library reads it as at most a day |
| Gateway.ShortTtlForgetsTooSoon | apps/api-gateway/src/auth/token-blacklist.service.ts:16-19 | with a shorter TTL a revoked token is admitted again |
| Gateway.AnsweredExactly | apps/api-gateway/src/auth/guards/jwt-auth.guard.ts:17-46 | with the look-up and the verification at different moments and anything in between, and whatever the header: a request passes unauthenticated exactly if its route is public; it gets in exactly with an issued access token that verifies at the second moment, was not revoked at the first although keys expire, and whose account the auth service vouches for, and then as that account; it is forbidden exactly if only the account's standing is missing, put off exactly if the auth service cannot be asked, and unauthorized in all other cases, a missing header among them |
| Gateway.AgreeingAnswers | apps/api-gateway/src/auth/strategies/jwt.strategy.ts:29-66 | with stores that agree up to expired tokens, guard, passport and strategy decide alike |
| Admission.DeactivatedIsNeverAdmitted | apps/api-gateway/src/auth/strategies/jwt.strategy.ts:29-66 | after a deactivation that answered Ack every bearer of the account is unauthorized, in any state of the gateway and any continuation of the auth service |
| Admission.AnsweredByTheAccount | apps/api-gateway/src/auth/strategies/jwt.strategy.ts:29-66 | with any accounts: a bearer whose token is in order is admitted exactly for a live, active account, as its row shows it, forbidden exactly for a live, inactive one, and unauthorized otherwise, as is every other bearer |
| Admission.AdmittedIffNeitherRevokedNorDeactivated | apps/api-gateway/src/auth/strategies/jwt.strategy.ts:29-66 | for an account in service a bearer is admitted exactly if the token was issued and verifies, was not revoked when the request arrived, and no call to the auth service was the deactivation of its account; and then with the address, role and standing its row has by then |
| Blacklist.TokenBlacklist.IsRevoked | apps/api-gateway/src/auth/token-blacklist.service.ts:22-25 | never true of a token that was not revoked, and true of one that was unless Redis has looked at its keys at or after the end of its time to live |
| Blacklist.VerifiesOnlyWhileListed | apps/api-gateway/src/auth/token-blacklist.service.ts:14-20 | an access token verifies only before the end of the time to live of its revocation |
| Blacklist.RevokedWhileItVerifies | apps/api-gateway/src/auth/token-blacklist.service.ts:14-25 | an access token revoked at any time is still on the blacklist at every instant at which it verifies, whenever Redis has looked at its keys |
| Blacklist.KeptUntilItsInstant | apps/api-gateway/src/auth/token-blacklist.service.ts:14-20 | a key survives any sequence of expirations exactly if Redis never looks at it at or after the end of its time to live |
| Sagas.TwoDatabasesAgree | apps/user-service/src/users/users.service.ts:36-41 | under loss, delay and redelivery every profile row has an existing account and carries its address; no user has two live profiles |
| Sagas.RemovalOrder | apps/api-gateway/src/users/users.controller.ts:112-128 | at every point of every run a deleted profile belongs to an account that is inactive, soft-deleted and without a usable refresh token |
| Sagas.RemovedMeansTheRowAsked | apps/api-gateway/src/users/users.controller.ts:112-128 | a removal that reported success was of the profile it was asked for: that row is deleted and the account of its owner gone |
| Sagas.UpdatedMeansTheRowAsked | apps/api-gateway/src/users/users.controller.ts:64-110 | an update that reported success was answered with a row of the caller, or of the owner of the profile asked for, that shows every change given |
| Sagas.OnlyTheAccountsConcerned | apps/api-gateway/src/users/users.controller.ts:91-128 | every message ever sent concerns the account its operation created or the owner of the profile it was asked for |
| Sagas.RegisteredMeansBothRows | apps/api-gateway/src/auth/auth.controller.ts:49-71 | a register call that reported success has the account of the address it was asked to register, and a profile row of that id and address whose names are those it was given or that an update of the same user has asked for since |
| Sagas.NextOfRegistration | apps/api-gateway/src/auth/auth.controller.ts:54-70 | a registration with an account ends as registered exactly on hearing of its profile and turns to compensation on anything else, a time-out included; it is compensated exactly on hearing the acknowledgement |
| Sagas.FailedProfileIsCompensated | apps/api-gateway/src/auth/auth.controller.ts:61-69 | in every continuation a registration past its account is waiting for its profile, registered, or has sent the deactivation of that very account |
| Sagas.CompensatedIsAcknowledged | apps/api-gateway/src/auth/auth.controller.ts:61-69 | a compensated registration has the acknowledgement of the deactivation of the account it created itself |
| Sagas.CompensationRestoresRegistrability | apps/api-gateway/src/auth/auth.controller.ts:54-70 | a compensated registration stays undone, all its tokens revoked, and its address can be registered exactly when no other live account holds it |
| Sagas.EveryReplyStaysTrue | apps/api-gateway/src/infrastructure/proxy/microservice.proxy.ts:31-48 | over every run, every reply a service has given, heard early, late or never, is true of both services from then on, and so is what each operation concluded from what it heard |
| Sagas.ErrorsEndTheOperation | apps/api-gateway/src/infrastructure/proxy/microservice.proxy.ts:31-48 | an operation goes on exactly on hearing the reply it asked for; an error or a time-out ends it, or starts or ends the compensation if there is an account to take back |
| SagaRuns.RegistrationCanSucceed | apps/api-gateway/src/auth/auth.controller.ts:49-71 | from any reachable state a registration of a free address can run to success |
| SagaRuns.CompensationCanSucceed | apps/api-gateway/src/auth/auth.controller.ts:61-69 | from any reachable state a registration of a free address whose profile is not created in time can run to an acknowledged compensation |
| SagaRuns.RemovalCanSucceed | apps/api-gateway/src/users/users.controller.ts:112-128 | from any reachable state the removal of a live profile with a live account can run to success, for its owner |
| SagaRuns.UpdateCanSucceed | apps/api-gateway/src/users/users.controller.ts:91-110 | from any reachable state the update of a live profile can run to success |
| ProfileRace.ConcurrentCreatesAgree | apps/user-service/src/users/users.service.ts:28-57 | from any reachable state, whatever was created and removed before: of any number of interleaved createProfile calls for a user, with no removal of the user under way or asked for meanwhile, none fails and all return the one live row |
| ProfileRace.AtMostOneLiveRow | apps/user-service/src/database/migrations/1720000000001-UserPartialUniqueUserId.ts:8-10 | in every schedule there is at most one live profile per user and every answer is a row of the user asked for |
| ProfileRace.RowsAtStatement | apps/user-service/src/users/users.service.ts:28-42 | in any interleaving no statement changes a row that is there but to delete the one its user's removal has found; none adds one but the INSERT of a create for a user without a live row, with the trimmed names, the normalised address, the drawn id and nothing else filled in |
| ProfileRace.LookUpsFindTheRow | apps/user-service/src/users/users.service.ts:43-56 | a create's look-up answers with the user's live row if there is one, the second one fails otherwise; a removal's goes for it or is not found |
| ProfileRace.WritesAnswer | apps/user-service/src/users/users.service.ts:43-56 | a create's INSERT answers with the row it has stored, or looks again if there is one already; a removal's UPDATE is always acknowledged |
| ProfileRace.FailedIffRowVanished | apps/user-service/src/users/users.service.ts:43-56 | over every run a create has failed exactly if its INSERT met a live row and, before its second look-up, that user's row was removed with none inserted after it |
| ProfileRace.CreateFailsIff | apps/user-service/src/users/users.service.ts:43-56 | from any state: which of failure and a returned row a create about to insert comes to, whatever interleaves |
| ProfileRace.RemovalCanFailACreate | apps/user-service/src/users/users.service.ts:43-56 | a schedule in which a create fails |
| Profiles.CreateIsIdempotent | apps/user-service/src/users/users.service.ts:28-57 | creating leaves exactly one live row for the user and repeating it changes nothing and answers the same |
| Profiles.CreateExactly | apps/user-service/src/users/users.service.ts:28-57 | with a live row of the user the answer is that row and nothing changes; without one the stored and answered row has the drawn id, the trimmed names, the normalised address and no optional field |
| Profiles.UpdateChangesWhatIsGiven | apps/user-service/src/users/users.service.ts:101-118 | an update gives each of the six fields of the one live row its new value if one is given and keeps it otherwise, never changes the address, the owner or another row, and is idempotent |
| Profiles.RemoveKeeps | apps/user-service/src/users/users.service.ts:120-127 | a removal deletes only the user's live row and leaves none |
| Profiles.RemoveExactly | apps/user-service/src/users/users.service.ts:120-127 | the user's live row is marked deleted and nothing else about it or any other row changes; without one nothing changes and the user is not found |
| UsersService.UsersService.CreateProfile | apps/user-service/src/users/users.service.ts:28-57 | look-up, INSERT and second look-up take the table, and answer, as the specification does |
| UsersService.UsersService.Update | apps/user-service/src/users/users.service.ts:101-118 | takes the table, and answers, as the specification does |
| UsersService.UsersService.Remove | apps/user-service/src/users/users.service.ts:120-127 | takes the table, and answers, as the specification does |
| UsersService.UsersService.FindAll | apps/user-service/src/users/users.service.ts:59-83 | a page shows consecutive matching live rows as they are stored, announces a next page exactly when there is one, all pages together show each matching row once, and the number of pages announced is the least that covers the listing |
| Pagination.PagesPartition | libs/common/src/utils/pagination.util.ts:6-34 | pages 1 to totalPages concatenate to the listing, and hasNextPage holds exactly when the next page is non-empty |
| Pagination.TotalPagesIsLeast | libs/common/src/utils/pagination.util.ts:6-24 | totalPages is the least number of pages that covers the listing |
| Pagination.EntryIsOnOnePage | libs/common/src/utils/pagination.util.ts:26-34 | entry k is on page k / limit + 1 and on no other |
| ValidationErrors.FlattenValidationErrors | libs/common/src/pipes/validation.pipe.ts:8-25 | the in-place reduce computes the flattening |
| ValidationErrors.FlatteningInventsNothing | libs/common/src/pipes/validation.pipe.ts:8-25 | for well-named trees a string is a key exactly when splitting it at dots gives the path of a node with constraints |
| ValidationErrors.FlatteningLosesNothing | libs/common/src/pipes/validation.pipe.ts:8-25 | the dotted path of every node with constraints is a key, maps to that node's own messages, and splits back into the path |
| ValidationErrors.NothingIsLostIff | libs/common/src/pipes/validation.pipe.ts:8-25 | for every tree the keys are the printed paths of the nodes with constraints, the node visited last keeps a shared key, and there are as many keys as such nodes exactly if no two print alike |
| ValidationErrors.FlattenIsLastWins | libs/common/src/pipes/validation.pipe.ts:12-24 | for every tree the nested merges come to assigning all (path, messages) pairs in visiting order |
| ValidationErrors.WellNamedPathsAreDistinct | libs/common/src/pipes/validation.pipe.ts:13-21 | well-named trees have distinct printed paths |
| ValidationErrors.DottedNamesCollide | libs/common/src/pipes/validation.pipe.ts:13-21 | a tree with a dot in a name that loses a message |

## Left out

- `changePassword` and `ensureAdmin` are atomic steps only: they save an entity read earlier, and how the ORM merges a stale entity is outside this model.
- Deadlocks between two many-row UPDATEs, and the database's way out of them, appear only as handlers that crash; no liveness is claimed. The foreign key's share lock on the user row is not modelled: the model allows more interleavings than the database.
- The gateway's controllers hold no state of their own, so `register`, `remove`, `update`, `logout` and `changePassword` there are steps of `Sagas` and `Gateway` rather than classes; `Sagas` takes each service handler as one step.
- `Registration.OneRegistrationWins`: the racing registrations do not crash, the ids they draw from `gen_random_uuid()` are unused, and the account that wins is not removed during the race.
- `ProfileRace.ConcurrentCreatesAgree`: creates that had met a row at their INSERT which is gone when the race begins are not covered; `ProfileRace.FailedIffRowVanished` says what becomes of them.
- `ProfileRace.FailedIffRowVanished`: ids drawn by `gen_random_uuid()` are unused, and an INSERT fails only at a unique index.
- `UsersService.UsersService.FindAll`: the filtered and ordered listing is taken as given; ILIKE matching, the choice of the sort column and ties between equal sort keys are not modelled.
- `Emails.NormalizeIdempotent`: characters are lower-cased and trimmed as in ASCII; other alphabets and Unicode spaces are not modelled.
- `ValidationErrors.FlattenValidationErrors`: the property name `__proto__`, which a plain JavaScript object treats specially, is like any other name here.
- `Duration.PrintedDurationReadings`: amounts are unbounded; JavaScript numbers beyond 2^53 are not modelled.
- A blacklist TTL of zero, which Redis rejects, and clocks that differ between services.
- Authorization headers other than `Bearer <token>`: the extractor of the passport library is not part of this model.
- Columns that no property reads: `createdAt`, `updatedAt`, `ip`, `userAgent`, and the `tokenType` and `expiresIn` fields of a reply; the handler `me`, a single read.
- Error messages, and the mapping of errors to HTTP and RPC payloads beyond the status the strategy uses.
- Bootstrap, configuration schemas, health checks, logging, request ids, response envelopes, throttling, response caching and the roles guard: wiring without a deep property.
