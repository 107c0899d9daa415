# Verification of the hackathon platform

A Dafny model of the platform's five stateful parts, with the properties they exist for
proved over every input and every run. Sessions, email verification, roles, registrations,
team creators, team and submission identifiers and judging are proved under every
interleaving of repository calls; event phases, submission status and files over serial
runs, because their rows are written back whole from copies that may be stale. For the
status of events and for submissions the exact limit of that is proved too.

`dafny verify dfyconfig.toml` checks the whole project.

## What is modelled

* **Rate limiting** (`RateLimit.dfy`). A pruned, auto-expiring sorted set per key stands in
  for the full request history. For requests that execute in the order of their stamps the
  set, the count and the decision are proved equal to those of the full history, exactly for
  the windows that the key's lifetime covers, and then no window admits more than the limit.
  Requests that overtake others are bounded over the window less their delay only.
* **Access tokens** (`AccessGate.dfy`). Logout writes a token's identifier to a cache whose
  entries expire; the middleware is proved to decide as if revocation were permanent, except
  exactly for checks during which the token expires.
* **Sessions and email verification** (`AuthModel.dfy`, `AuthSafety.dfy`,
  `AuthVerified.dfy`, `AuthServices.dfy`). One action is one repository call with the checks
  that follow it; any number of calls interleave. The services are written as the code is,
  with arbitrary other requests between any two of their repository calls, and are proved to
  make runs of that machine, so the theorems about runs are theorems about the services.
  `LogoutRace.dfy` decides when a logout is sure to end its session, and `TimelyTokens.dfy`
  shows over whole runs that no token works after its expiry.
* **Events, roles, teams, submissions, files** (`PlatformModel.dfy`, then two machines).
  `Interleaving.dfy` has one repository call per step and carries the properties that
  survive interleaving (`RoleSafety.dfy`, `TeamSafety.dfy`, `TeamCreators.dfy`).
  `Lifecycle.dfy` has one use case
  per step and carries those that need it, because events and submissions are rewritten as
  whole rows without a version (`LifecycleSafety.dfy`, `UploadSafety.dfy`). `StaleWrites.dfy`
  and `StaleSubmissions.dfy` say exactly when interleaved updates can take an event's status
  back, or a submission out of the state it was submitted in.
  `Granularity.dfy` proves that a use case left alone in the first machine does what it does
  in the second. `PlatformStore.dfy`, `EventServices.dfy` and `SubmissionServices.dfy` hold
  the repositories, the domain objects and the use cases in imperative form; each use case
  is proved to make the one step its command stands for.
* **Judging** (`Scoring.dfy`, `Judging.dfy`, `JudgingServices.dfy`). Score validation, the
  weighted total, the multi-row upsert, and the submission of scores as an interleaved
  machine and as code that other requests interrupt between its repository calls.

Besides that tie to a machine, each service's contract says, on the tables and column by
column, which case ends in which error and what exactly is stored.

Wherever a query's answer is not determined (an unordered single row, a search by a column),
the machines allow every answer the table permits.

## What is assumed

* Identifiers are drawn without repetition where a fresh one is said to be used; hashing is
  injective, so a row's hash is represented by the text it hashes; signed tokens are the
  ones the issuer signed; the password hasher is an arbitrary predicate.
* The constraints are those of the migrations: primary keys, unique indexes, foreign keys
  among the tables of one part and the bounds on the team size. A statement that violates
  one changes nothing. Events, teams, submissions and scores have no users table beside
  them, so their keys to users are not modelled: callers are users that exist.
* A repository call that fails ends its use case there, which the interleaved machines allow
  at every point. In a serial run this is the step that changes nothing, except in the use
  cases that write more than once: their commands say how the later writes fail, and
  whether a failed write was done with its reply lost. Lookups whose errors the code drops
  are flags of the commands too, where the answer matters: in the creation of a team and
  of a submission, and in a logout.
* One clock serves the token issuer, the middleware and the cache. A cache key is readable
  up to and including the millisecond of its deadline. The cache client sends whole
  milliseconds with SET and whole seconds with EXPIRE, rounded down but never to zero.
* Rate-limiter windows are whole milliseconds. Stamps are distinct nanoseconds where
  requests are counted. The exact results ask for stamps in execution order, and for
  executions that run ahead of their stamps by no more than the key's lifetime leaves room
  for, which is one millisecond for a window of whole seconds; the others for executions in
  time order.
* Email verification is wired as in cmd/api/main.go:89-94, so that every registration
  invites and none starts a session.
* Rubrics do not change while they are judged. Criteria are read in any order, as the query
  names none.

## Where the code and its surroundings differ

The code is followed throughout.

* The upload, score, assignment and audit statements name columns that the migrations do not
  have (migrations/009_create_uploads.sql, 012_create_judge_assignments.sql,
  013_create_scores.sql, 015_create_audit_log.sql), the audit action is not of the
  migration's enumeration, and the bulk assignment's conflict target is only a partial
  unique index there. The tables modelled are the ones the statements describe.
* A verified account is meant to stay verified, yet the whole-row update of a
  re-registration can undo a verification that happened after its read.
  `AuthVerified.VerificationLostIff` says exactly when, and `AuthVerified.StaysVerifiedIff`
  which users are safe for good.
* An event's status is meant only to climb, yet an update writes back the row it loaded.
  `StaleWrites.NeverFallsIff` says exactly when that is harmless: as long as no two updates
  of the event overlap. Submissions are rewritten the same way: an edit that spans a submit
  takes it back, and `StaleSubmissions.NeverBreaksIff` says exactly when none can.
* A logged-out token is meant to open nothing, yet the entry that blocks it ends with the
  token's life. `AccessGate.AgreesIffNotStraddling` says exactly which checks notice.
* Every disqualification is meant to be logged, yet the log is written last and may fail;
  with the tables of the migrations it always does.
  `LifecycleSafety.DisqualifyLogsIff` says exactly what that leaves.
* A logout is meant to end the session, yet it loses against a Refresh that takes its token
  first, and reports success. `AuthSafety.LogoutEndsSessionIff` says exactly when it did,
  `LogoutRace.LogoutAlwaysEndsIff` when it is sure to, and `LogoutRace.LogoutCanMiss` gives a
  run. It also reports success when the lookup or the revocation fails.
* A team is meant to have its creator as a member and an event its creator as organizer, yet
  each is stored by two inserts without a transaction. `LifecycleSafety.TeamStepLeadsIff`,
  `LifecycleSafety.EventsKeepTheirOrganizersIff` and `TeamCreators.UnledIff` say exactly
  which calls leave the first row alone; nothing repairs it afterwards.
* `ValidateScores` accepts a criterion that is listed twice; the upsert then refuses the whole
  list, so a successful submission lists each criterion once.
* The expiry of a rate-limit key is cut to whole seconds while its window is not;
  `SlidingWindow.RefinesHistoryIff` says exactly which windows this leaves correct. Both
  windows in use are whole minutes.
* The two ignored deletions of an old cover, and an upload that fails after them, can leave
  rows, objects and the cover URL apart; `UploadSafety.UploadAgreesIff` says exactly when.

## Model

| member | source | states |
|---|---|---|
| SlidingWindow.RateLimiter.RateLimit | internal/shared/middleware/rate_limit.go:24-75 | One request prunes, adds itself, counts and renews the expiry; it is served exactly when the transaction succeeded and the set then holds at most `limit` members; a failure never serves, whether or not the transaction ran |
| SlidingWindow.KeysAreIndependent | internal/shared/middleware/rate_limit.go:34-57 | For every trace over many keys, the set under a key is the one that key's own requests alone would have built |
| SlidingWindow.MembersComeFromHistory | internal/shared/middleware/rate_limit.go:45-51 | Every member is a stamp of the history, scored by its millisecond, and is the last request or inside its window |
| SlidingWindow.RecentIsKept | internal/shared/middleware/rate_limit.go:45-57 | Pruning by other requests and expiry of the key reach only stamps at least a window or a key lifetime old, for any execution delay |
| SlidingWindow.DelayOnlyForgets | internal/shared/middleware/rate_limit.go:36-57 | With a bounded delay between stamp and execution the counted set lies between the true window and the window shortened by the delay |
| SlidingWindow.WindowIsKept | internal/shared/middleware/rate_limit.go:45-57 | When stamps come in execution order, no stamp that is still in the window is pruned or expires with its key, however late the requests execute, if the key's lifetime covers the window and the jitter |
| SlidingWindow.RefinesHistoryIff | internal/shared/middleware/rate_limit.go:36-57 | The pruned, expiring set equals the full-history window on every history in stamp order if and only if the key's whole-second lifetime covers the window and the jitter between stamps and executions; a whole-second window leaves room for a millisecond of jitter |
| SlidingWindow.ShortLifetimeForgets | internal/shared/middleware/rate_limit.go:57 | For every window and jitter that the lifetime does not cover, the concrete two-request history on which the limiter forgets a request that its window still holds |
| SlidingWindow.CountsTheWindow | internal/shared/middleware/rate_limit.go:45-54 | For stamps in execution order and a covered window and jitter the set is exactly the window of the full history |
| SlidingWindow.DecisionIsHistoryDecision | internal/shared/middleware/rate_limit.go:36-70 | With distinct stamps in execution order a request is admitted exactly when the full history holds at most `limit` requests, admitted or refused, in the window ending with it |
| SlidingWindow.AtMostLimitAdmitted | internal/shared/middleware/rate_limit.go:36-70 | Over every run, any interval as long as the window less the delay contains at most `limit` admitted requests of a key |
| SlidingWindow.WholeWindowBound | internal/shared/middleware/rate_limit.go:36-70 | For stamps in execution order that bound holds for every interval (m - W, m] of the full window |
| SlidingWindow.OvertakingAdmitsMore | internal/shared/middleware/rate_limit.go:36-70 | The order is needed: for every window, one millisecond of delay and one overtaking let three requests stamped in one window pass a limit of two |
| AccessGate.RedisCache.Get | internal/shared/cache/redis.go:41-50 | A miss and an expired key are both no value; only a failed call is an error |
| AccessGate.RedisCache.Set | internal/shared/cache/redis.go:52-54 | Stores the value with a deadline computed from the whole milliseconds of the lifetime, unless the call was not done |
| AccessGate.RedisCache.Delete | internal/shared/cache/redis.go:56-58 | Removes that key and nothing else |
| AccessGate.KeysApart | internal/auth/usecase/logout.go:25 | Blacklist keys never collide with the cache's other keys and determine the token identifier |
| AccessGate.Blacklist | internal/auth/usecase/logout.go:22-29 | The cache half of a logout: nothing for an expired token, otherwise an entry that lives as long as the token; an error exactly when the cache call fails |
| AccessGate.WriteCoversLife | internal/auth/usecase/logout.go:22-26 | Rounding the remaining life to milliseconds never makes the entry unreadable before the token's `exp` |
| AccessGate.JWTMiddleware | internal/shared/middleware/middleware.go:67-132 | Accepts exactly the signed, unexpired tokens that carry an identifier and have no readable blacklist entry when the cache answers; each of the three refusals is reported exactly in its own case, and a cache failure refuses |
| AccessGate.TokensLiveAsConfigured | internal/shared/auth.go:47-74 | An access token names its user and identifier and ends its configured minutes after its issue, a refresh token its configured days of 24 hours, both cut to whole seconds |
| AccessGate.AccessTokenLifetime | internal/shared/auth.go:47-60 | An access token is accepted from its issue to the end of its lifetime, cut to whole seconds, and never later |
| AccessGate.RefreshTokensCollideIff | internal/shared/auth.go:62-72 | Two refresh tokens of one user are equal exactly when both clock readings fall into the same seconds; none carries an identifier, so the middleware never takes one for an access token |
| AccessGate.StepKeepsInv | internal/auth/usecase/logout.go:21-29 | Every kind of cache traffic keeps the blacklist covering the life of each logged-out token and, without failures, free of stray entries |
| AccessGate.GateAgreesWithPermanentRevocation | internal/shared/middleware/middleware.go:84-125 | After any sequence of logouts and other traffic the gate accepts a token exactly when it is unexpired (section 4.1.4 of RFC 7519) and its `jti` (section 4.1.7) was never logged out, unless the token expires between the parse and the cache's answer; with cache errors acceptance still implies both |
| AccessGate.StraddlingCheckAccepts | internal/shared/middleware/middleware.go:84-112 | Every check whose parse precedes the expiry and whose cache answer follows it accepts a token that was logged out |
| AccessGate.AgreesIffNotStraddling | internal/shared/middleware/middleware.go:84-125 | For every access token and every two times of a check, agreement with permanent revocation after all fault-free traffic, and soundness after all traffic, each hold if and only if the token does not expire between the parse and the cache's answer |
| AuthSafety.StepKeepsSessions | internal/auth/usecase/refresh.go:33-84 | Every repository call of every use case keeps one holder per family, one spender per token and linear rotation, and revives no ended family |
| AuthSafety.OneHolderPerFamily | internal/auth/usecase/refresh.go:33-84 | In every reachable state the unrevoked tokens of a login's family plus the Refresh calls between their Revoke and their Save number at most one |
| AuthSafety.RotationIsLinear | internal/auth/usecase/refresh.go:56-84 | Whatever Refresh and Logout calls interleave, at most one Refresh succeeds on a token and each token has at most one successor |
| AuthSafety.EndedSessionsStayEnded | internal/auth/usecase/logout.go:31-37 | Once a family has no holder, no continuation of the run gives it one again |
| AuthSafety.LogoutEndsSessionIff | internal/auth/usecase/logout.go:31-37 | In every reachable state the revocation of a logout ends the token's session if and only if that token still held it or nothing did: a logout that lost the race to a Refresh leaves the session alive |
| LogoutRace.LateLogoutMisses | internal/auth/usecase/logout.go:31-37 | In every reachable state a Refresh that has passed its checks and revokes the token before the logout does keeps the session going, and the logout reports success |
| LogoutRace.LogoutCanMiss | internal/auth/usecase/logout.go:31-37 | A concrete run from the empty tables in which exactly that happens |
| LogoutRace.LogoutAlwaysEndsIff | internal/auth/usecase/refresh.go:33-84 | From every reachable state with a logout about to revoke a token that holds its session, the logout ends the session whatever the other calls do first if and only if no Refresh of the token has passed its checks and its user is not active |
| AuthVerified.VerificationNeedsAToken | internal/auth/usecase/verify_email.go:27-58 | In every reachable state a verified user has a consumed email token of their own, and so has the owner of every refresh token |
| AuthVerified.EmailTokensAreSingleUse | internal/auth/usecase/verify_email.go:50-53 | An email token is consumed by at most one successful Verify, whatever calls interleave |
| AuthVerified.SessionsKeepTheirUser | internal/auth/usecase/refresh.go:74-84 | In every reachable state all tokens of a login's family belong to the user who logged in, through any number of rotations |
| AuthVerified.CopiesAlwaysFit | internal/auth/repository/postgres.go:119-131 | In every reachable state the whole-row write of a Verify or a re-registration succeeds: its user exists and no other row has its email |
| AuthVerified.VerificationLostIff | internal/auth/usecase/register.go:73-87 | A step makes a verified user unverified if and only if it is the whole-row write of a re-registration that read the user earlier |
| AuthVerified.VerificationCanBeLost | internal/auth/usecase/register.go:83-87 | A concrete run in which exactly that happens |
| AuthVerified.StaysVerifiedIff | internal/auth/usecase/register.go:73-87 | In every reachable state a verified user stays verified on every continuation if and only if no re-registration that read it unverified is still to write |
| TimelyTokens.RefreshesAreTimely | internal/auth/usecase/refresh.go:42-57 | In every run a Refresh that goes on with a token found it with the hash it asked for, not revoked, and no later than its expiry |
| TimelyTokens.VerificationsAreTimely | internal/auth/usecase/verify_email.go:28-53 | In every run a Verify that goes on with an email token found it with its text, unused, and no later than its expiry |
| TimelyTokens.UsedIff | internal/auth/usecase/verify_email.go:33-53 | In every run an email token is used if and only if a call that found it in time consumed it |
| AuthServices.RefreshTokenRepository.Revoke | internal/auth/repository/postgres.go:198-212 | The conditional update: sets the revocation time of a live row only, and reports whether there was one |
| AuthServices.RefreshTokenRepository.Save | internal/auth/repository/postgres.go:172-178 | Inserts unless the identifier or the hash exists or the user does not; otherwise the table is unchanged |
| AuthServices.EmailVerificationRepository.MarkUsed | internal/auth/repository/postgres.go:269-283 | The conditional update: consumes an unused row only, and reports whether there was one |
| AuthServices.EmailVerificationRepository.Save | internal/auth/repository/postgres.go:231-248 | Inserts unless the identifier or the hash exists or the user does not; otherwise the table is unchanged |
| AuthServices.UserRepository.Update | internal/auth/repository/postgres.go:119-131 | Overwrites the whole row of an existing user unless another row has the email, and does nothing to a missing one; fails exactly on such an email |
| AuthServices.UserRepository.Save | internal/auth/repository/postgres.go:105-117 | Inserts unless the identifier or the email exists; otherwise the table is unchanged |
| AuthServices.UserRepository.FindByEmail | internal/auth/repository/postgres.go:139-149 | Returns a row with that email, or none exactly when there is none |
| AuthServices.RefreshTokenRepository.FindByHash | internal/auth/repository/postgres.go:180-190 | Returns a row with that hash, revoked or not, or none exactly when there is none |
| AuthServices.EmailVerificationRepository.FindByHash | internal/auth/repository/postgres.go:250-267 | Returns a row with that hash, used or not, or none exactly when there is none |
| AuthSafety.OthersKeepCall | internal/auth/usecase/refresh.go:33-98 | No run of other requests changes how far this request has come |
| AuthServices.RefreshService.Refresh | internal/auth/usecase/refresh.go:33-98 | Under arbitrary interference between its repository calls: the call goes on exactly with a row of that hash that is not revoked and has not expired, for a user that exists and is active, while the row is still live at its revocation, and stores the issued token as the only new row if the table takes it; each other case has its own error and leaves the tokens as they were or as the revocation left them; the calls are the machine's Refresh script |
| AuthServices.VerifyEmailService.Verify | internal/auth/usecase/verify_email.go:21-61 | Under interference: the call goes on exactly with a row of that text that is unused and not past its expiry, reporting not found, used and late in this order; it claims the row before it writes the user row that it read, with the verification and its first time set and nothing else; the calls are the machine's Verify script |
| AuthServices.LoginService.CheckAccount | internal/auth/usecase/login.go:38-49 | Disabled or unverified accounts, and only these, are forbidden, before the password is looked at; a wrong password is invalid credentials |
| AuthServices.LoginService.Login | internal/auth/usecase/login.go:30-85 | Under interference: a session is stored exactly for an account of that email that is active and verified and whose stored hash matches, if the table takes the issued token, which starts its own family; an unknown email and a wrong password are not told apart; the calls are the machine's Login script |
| AuthServices.LogoutService.Logout | internal/auth/usecase/logout.go:21-40 | Blacklists first, for the rest of the token's life in whole milliseconds, and stops on a cache error; otherwise a given refresh token is looked up and, if its row is live, revoked at that time, unless the lookup or the revocation fails, which the answer does not show |
| AuthServices.RegisterService.Register | internal/auth/usecase/register.go:72-155 | Under interference: refuses a verified account, writes an unverified one back as it was read with exactly the new password hash and name, inserts the new account unless its email or name is refused or taken, then stores an unused email token for 24 hours; a mail that cannot be sent fails the new account's request with everything stored; the calls are the machine's Register script |
| RoleSafety.StepKeepsRoles | internal/events/usecase/create.go:52-60 | Every repository call of every use case keeps the role invariant and never takes an organizer or judge row away |
| RoleSafety.RolesAreExclusive | internal/teams/usecase/register.go:29-57 | In every reachable state a non-draft event has its creator's organizer row, only the creator is organizer, and no user holds two roles in one event |
| RoleSafety.RoleLookupIsDetermined | internal/events/repository/pg_event_role_repo.go:28-33 | So the single-row role query, which names no order, has one possible answer |
| TeamSafety.RegistrationsBalance | internal/teams/usecase/register.go:54-99 | Under every interleaving successful Registers minus successful Unregisters of a user in an event is one when the participant row exists and zero otherwise |
| TeamSafety.EventIdsAlwaysAgree | internal/teams/usecase/create_team.go:66-92 | In every reachable state a membership's event is its team's and its user that team's creator; a submission's event is its team's, and its track belongs to it |
| Granularity.CreateEventAlone | internal/events/usecase/create.go:24-60 | Run without interruption, the interleaved repository calls of this use case end with the tables and outcome of the serial step |
| Granularity.UpdateEventAlone | internal/events/usecase/update.go:23-80 | Run without interruption, the interleaved repository calls of this use case end with the tables and outcome of the serial step |
| Granularity.RegisterAlone | internal/teams/usecase/register.go:23-65 | Run without interruption, the interleaved repository calls of this use case end with the tables and outcome of the serial step |
| Granularity.UnregisterAlone | internal/teams/usecase/register.go:77-100 | Run without interruption, the interleaved repository calls of this use case end with the tables and outcome of the serial step |
| Granularity.CreateTeamAlone | internal/teams/usecase/create_team.go:24-95 | Run without interruption, the interleaved repository calls of this use case end with the tables and outcome of the serial step, whichever lookups fail |
| Granularity.CreateSubmissionAlone | internal/submissions/usecase/create.go:33-84 | Run without interruption, the interleaved repository calls of this use case end with the tables and outcome of the serial step, whether or not the lookup of an existing submission fails |
| StaleWrites.NeverFallsIff | internal/events/repository/pg_event_repo.go:240-255 | From any state with none of an event's updates in flight, its status falls in no interleaving with at most k of them in flight if and only if k is at most one or the event is archived |
| StaleWrites.OneAtATimeClimbs | internal/events/usecase/update.go:23-80 | Whatever else interleaves, a run in which no two updates of an event are in flight together never lowers its status |
| StaleWrites.WriteLowersIff | internal/events/usecase/update.go:23-80 | Whatever ran since the update's load, its write lowers the status if and only if the table takes it and the event has meanwhile climbed above the status that the update asks for or, asking for none, the one it read |
| StaleWrites.OverlappingUpdateTakesBack | internal/events/usecase/update.go:23-80 | For every event and every allowed move, an update that changes no status but spans the move takes the event back to its old status |
| StaleSubmissions.ChangeStores | internal/submissions/usecase/update.go:52-69 | Whatever ran in between, a change stores the row that its call loaded with exactly its own columns changed, if that row was a draft or is disqualified, and nothing otherwise |
| StaleSubmissions.NeverBreaksIff | internal/submissions/repository/pg_submission.go:97-136 | From any state with none of a submission's changes in flight, no interleaving with at most n of them in flight takes its status back or rewrites it after draft if and only if n is at most one or it has left draft |
| StaleSubmissions.OneAtATimeAges | internal/submissions/usecase/update.go:25-69 | Whatever else interleaves, a run in which no two changes of a submission are in flight together keeps its status from falling and its content fixed after draft |
| StaleSubmissions.LateEditTakesBack | internal/submissions/usecase/update.go:25-69 | For every draft, an edit that spans a submit puts the draft back as it was |
| LifecycleSafety.EditClimbs | internal/events/domain/event.go:24-68 | An accepted edit never lowers the status rank, keeps slug and creator, keeps the team size once submissions opened, and leaves archived events archived |
| LifecycleSafety.EventsSettle | internal/events/usecase/update.go:39-80 | Over any serial run an event's status never falls; from submissions_open on its teams, members and team size never change, and from judging on no submission is added |
| LifecycleSafety.NoStatusIsRevisited | internal/events/domain/event.go:24-68 | If an event has the same status at both ends of a run it had it throughout, so no status is revisited and archived is absorbing |
| LifecycleSafety.StatusChangesAreFew | internal/events/domain/event.go:24-68 | Each change of status climbs the rank, so over any run there are at most six |
| LifecycleSafety.RowsComeInPhase | internal/teams/usecase/create_team.go:31-92 | In every serial run a team or membership implies its event reached registration_open, a submission that it reached submissions_open |
| LifecycleSafety.RunsStayFair | internal/teams/usecase/register.go:36-99 | Members are registered participants, judges and participants of an event are apart, and assignments belong to the event's judges and submissions, in every serial run from such a state |
| LifecycleSafety.NobodyJudgesTheirOwnTeam | internal/judging/repository/pg_assignment_repo.go:34-56 | No assignment in any serial run pairs a judge with a submission of an event in which the judge has a seat, although the query has no conflict filter |
| LifecycleSafety.LaterAssignmentsAreNew | internal/judging/repository/pg_assignment_repo.go:34-56 | Whatever serial run comes between two bulk assignments, the second inserts only pairs that were not eligible at the first |
| LifecycleSafety.AssigningTwiceAddsNothing | internal/judging/repository/pg_assignment_repo.go:34-56 | In particular running the bulk assignment twice in a row inserts no second row |
| LifecycleSafety.TeamsKeepTheirCreatorsIff | internal/teams/usecase/create_team.go:69-92 | Over any serial run every team keeps its creator as a member if and only if no creation saved its team and then did not insert the member; nothing repairs a team later |
| LifecycleSafety.TeamStepLeadsIff | internal/teams/usecase/create_team.go:31-92 | A creation leaves every team with its creator if and only if it is refused, or the member insert is done and the user has no seat in the event, which a failed lookup does not find out |
| LifecycleSafety.TeamsCanBeLeft | internal/teams/usecase/create_team.go:83-92 | A concrete creation whose member insert fails and whose team stays without its creator |
| LifecycleSafety.SecondTeamsCanBeLeft | internal/teams/usecase/create_team.go:43-46 | A concrete second creation of one user, past a failed lookup, that does the same although every write is done |
| LifecycleSafety.EventsKeepTheirOrganizersIff | internal/events/usecase/create.go:51-60 | Over any serial run every event keeps its creator as organizer if and only if each creation that saved its event inserted the organizer row |
| LifecycleSafety.UnownedEventsNeverChange | internal/events/usecase/update.go:23-37 | An event whose organizer row is missing keeps every column in every serial run, since only an organizer may update it and no use case grants the role later |
| TeamCreators.UnledIff | internal/teams/usecase/create_team.go:66-92 | Under every interleaving a team lacks its creator if and only if the call that saved it has yet to add the member, or has failed there |
| TeamCreators.FateIsFinal | internal/teams/usecase/create_team.go:66-92 | Once that call is over, no interleaving gives a lost team its creator or takes the creator from another |
| TeamCreators.RacingCreationsLoseOne | internal/teams/usecase/create_team.go:42-92 | Two creations of one user in one event that have both saved their teams always leave one of them without its creator |
| LifecycleSafety.SubmissionsOnlyAge | internal/submissions/domain/submission.go:71-91 | Status never moves back; once a submission left draft its texts, links, cover, team, event, track and submission time never change |
| LifecycleSafety.SubmittedMeansTimed | internal/submissions/domain/submission.go:82-91 | In every serial run a submitted row has a submission time, and a row with one is no draft |
| LifecycleSafety.OnlyTheEntitledChange | internal/submissions/usecase/update.go:25-69 | Over all use cases a stored submission changes only through a member of its own team, on a draft and by the deadline, or through an administrator's disqualification |
| LifecycleSafety.DisqualifyLogsIff | internal/submissions/usecase/disqualify.go:31-68 | A disqualification leaves every disqualified submission on record if and only if it is refused, its audit entry is written, or the submission was on record before |
| LifecycleSafety.DisqualificationCanGoUnlogged | internal/submissions/usecase/disqualify.go:31-68 | A concrete disqualification that leaves a disqualified submission without an entry |
| LifecycleSafety.DisqualificationsAreLogged | internal/submissions/usecase/disqualify.go:31-68 | Over every serial run whose audit entries are written, each disqualified submission is in the audit log |
| LifecycleSafety.SerialRunsAreSound | internal/teams/usecase/create_team.go:24-95 | All of these hold in every serial run from a platform without teams, submissions and assignments in which judges and participants are apart, the teams' creators exactly when no creation loses one |
| UploadSafety.RowsAndObjectsCorrespond | internal/submissions/usecase/upload.go:110-132 | Under agreement two upload rows never share an object and every stored object has its row |
| UploadSafety.UploadAgreesIff | internal/submissions/usecase/upload.go:98-140 | An upload keeps rows, objects and cover URL in agreement if and only if it is refused or its failures are harmless: which of the five writes were not done or lost their reply, and whether an old cover was being replaced, decides exactly |
| UploadSafety.UploadsCanDisagree | internal/submissions/usecase/upload.go:112-132 | A concrete upload whose row cannot be stored, and which leaves an object without a row |
| UploadSafety.RunsAgree | internal/submissions/usecase/upload.go:85-140 | Every use case keeps rows and objects one to one, at most one cover row a submission, and the cover URL equal to that row's, over any serial run whose upload failures are harmless |
| UploadSafety.FilesAgreeFromTheStart | internal/submissions/usecase/upload.go:85-140 | In particular over every such run of a platform that starts without submissions and files |
| PlatformStore.LoadedEvent.New | internal/events/domain/event.go:70-97 | A new event is a draft with team size five if none was given and deadlines 30 and 45 days ahead unless set |
| PlatformStore.LoadedEvent.Transition | internal/events/domain/event.go:58-68 | Searching the allowed targets changes the status exactly when the table allows it, and nothing else |
| PlatformStore.LoadedSubmission.CheckCanEdit | internal/submissions/domain/submission.go:71-79 | Allows a draft by the deadline; otherwise not-a-draft is reported before a passed deadline |
| PlatformStore.LoadedSubmission.Submit | internal/submissions/domain/submission.go:82-91 | Submits with the second clock reading exactly when editing is allowed; a refusal changes nothing |
| PlatformStore.EventRepository.Load | internal/events/repository/pg_event_repo.go:122-139 | Returns a fresh object holding the row with that slug, or none exactly when there is none; changing it does not change the row |
| PlatformStore.EventRepository.Save | internal/events/repository/pg_event_repo.go:92-120 | Inserts a new identifier unless the slug is taken, and overwrites every column but slug and creator of an existing one; a team size out of bounds fails either way, and a failure leaves the table unchanged |
| PlatformStore.EventRepository.Update | internal/events/repository/pg_event_repo.go:240-255 | Overwrites every column but slug and creator of an existing row |
| PlatformStore.RoleRepository.HasRole | internal/teams/repository/pg_registration.go:22-27 | Says whether the user has exactly that row |
| PlatformStore.RoleRepository.GrantRole | internal/events/repository/pg_event_role_repo.go:18-26 | Adds the row if it is missing, unless the call is not done, and reports any failure of the call |
| PlatformStore.RoleRepository.GrantParticipantRole | internal/teams/repository/pg_registration.go:39-52 | Adds the participant row if it is missing and says whether it was |
| PlatformStore.RoleRepository.GetRole | internal/events/repository/pg_event_role_repo.go:28-33 | Returns the role of some row of the user in the event, or none exactly when there is no row |
| PlatformStore.RoleRepository.RevokeParticipant | internal/teams/repository/pg_registration.go:54-68 | Deletes the participant row only and says whether there was one |
| PlatformStore.TeamRepository.FindByEventAndUser | internal/teams/repository/pg_team_repo.go:22-67 | Returns the team of the user's seat in the event, or none exactly when there is no seat |
| PlatformStore.TeamRepository.FindByInviteCode | internal/teams/repository/pg_team_repo.go:76-120 | Says whether some team of any event has the code |
| PlatformStore.TeamRepository.Save | internal/teams/repository/pg_team_repo.go:122-154 | Inserts unless the invite code, or the name within the event, is taken |
| PlatformStore.TeamRepository.AddMember | internal/teams/repository/pg_team_repo.go:156-182 | Inserts unless the user has a seat in the event, the team or the event does not exist, or the call is not done; otherwise the table is unchanged, and any failure is reported |
| PlatformStore.TrackRepository.FindByEventID | internal/events/repository/pg_track_repo.go:19-43 | Lists exactly the tracks of the event |
| PlatformStore.AssignmentRepository.BulkCreateForEvent | internal/judging/repository/pg_assignment_repo.go:34-56 | Inserts one row for each judge and submitted submission of the event that have none yet, with one of the event's rubrics, and no other row; the stored rows stay |
| PlatformStore.RowsAnswer | internal/judging/repository/pg_assignment_repo.go:34-56 | Each inserted row is due: a judge of the event, a submitted submission of it, a rubric of it; no two rows have one pair, and no due pair is left without a row |
| PlatformStore.SubmissionRepository.Save | internal/submissions/repository/pg_submission.go:42-69 | Inserts unless the team has a submission in the event; never stores a submission time |
| PlatformStore.SubmissionRepository.Update | internal/submissions/repository/pg_submission.go:97-136 | Overwrites every modelled column but team and event of an existing row |
| PlatformStore.SubmissionRepository.FindByID | internal/submissions/repository/pg_submission.go:84-95 | Returns a fresh object holding the row, or none exactly when there is none |
| PlatformStore.SubmissionRepository.FindByTeamAndEvent | internal/submissions/repository/pg_submission.go:71-82 | Says whether the team has a submission in the event, whatever its status |
| PlatformStore.UserReader.IsAdmin | internal/submissions/repository/pg_admin.go:20-28 | Says whether an existing user is an administrator; no answer exactly for a user that does not exist |
| PlatformStore.AuditLogWriter.Write | internal/submissions/repository/pg_admin.go:38-50 | Appends the entry and keeps the earlier ones, unless the call is not done, and reports any failure |
| PlatformStore.UploadRepository.Save | internal/submissions/repository/pg_upload.go:22-45 | Inserts unless the call is not done, the identifier exists or the submission does not; otherwise the table is unchanged, and any failure is reported |
| PlatformStore.UploadRepository.Delete | internal/submissions/repository/pg_upload.go:118-122 | Deletes that row and no other, unless the call is not done |
| PlatformStore.UploadRepository.FindCoverBySubmissionID | internal/submissions/repository/pg_upload.go:97-116 | Returns some cover row of the submission, or none exactly when it has none |
| EventServices.CreateEventService.Create | internal/events/usecase/create.go:24-60 | The code makes exactly the serial machine's step for its command, with the same error; a taken slug is reported before an empty one, and a failing grant with the event stored |
| EventServices.EditStores | internal/events/usecase/update.go:36-73 | Which updates are refused and why, and what an accepted one makes of each column: the value it names, or the old one |
| EventServices.UpdateEventService.Apply | internal/events/usecase/update.go:39-78 | On the loaded object the transition comes first and the team size is judged by the status it reached; a locked team size leaves the object in its new status |
| EventServices.UpdateEventService.Update | internal/events/usecase/update.go:23-80 | The code makes exactly the serial machine's step for its command, with the same error; accepted exactly for an organizer, an allowed move and a team size that the status reached still leaves open and the table takes; every column the command names is then stored, every other column and every other row stays; a rejected update leaves every stored row unchanged even if the loaded copy had already transitioned |
| EventServices.RegisterService.Register | internal/teams/usecase/register.go:23-65 | The code makes exactly the serial machine's step for its command, with the same error: registration open and not past its closing time, then the two exclusive roles in a loop, then the participant row |
| EventServices.UnregisterService.Unregister | internal/teams/usecase/register.go:77-100 | The code makes exactly the serial machine's step for its command, with the same error: the participant row goes exactly if it exists and the user has no seat in the event |
| EventServices.CreateTeamService.PickCode | internal/teams/usecase/create_team.go:54-64 | The retry loop ends with the first code that is free or could not be looked up, or with the third |
| EventServices.CreateTeamService.Create | internal/teams/usecase/create_team.go:24-95 | The code makes exactly the serial machine's step for its command, with the same error, for every combination of lookups whose errors are dropped and of failures of the member insert |
| SubmissionServices.CreateSubmissionService.TrackBelongs | internal/submissions/usecase/create.go:56-70 | The search among the event's tracks finds the track exactly when it belongs to the event |
| SubmissionServices.CreateSubmissionService.Create | internal/submissions/usecase/create.go:33-84 | The code makes exactly the serial machine's step for its command, with the same error; a failed lookup of an existing submission is caught by the table |
| SubmissionServices.EditingService.Update | internal/submissions/usecase/update.go:25-69 | The code makes exactly the serial machine's step for its command, with the same error: a member's edit of a draft by the deadline stores the title, description and two links it names and keeps every other column |
| SubmissionServices.EditingService.Submit | internal/submissions/usecase/submit.go:24-54 | The code makes exactly the serial machine's step for its command, with the same error: a member's draft by the deadline gets the status and the second clock reading and keeps every other column |
| SubmissionServices.DisqualifyService.Disqualify | internal/submissions/usecase/disqualify.go:31-68 | The code makes exactly the serial machine's step for its command, with the same error, including an unknown administrator and an audit entry that cannot be written |
| SubmissionServices.UploadService.DeleteOldCover | internal/submissions/usecase/upload.go:98-108 | The old cover's object and row go, each unless its deletion is not done, and nothing else changes |
| SubmissionServices.UploadService.UploadFile | internal/submissions/usecase/upload.go:40-140 | The code makes exactly the serial machine's step for its command, with the same error, for every combination of writes that are not done or lose their reply |
| Scoring.Pigeonhole | internal/judging/domain/score.go:46-49 | Ids drawn from the rubric are as many as its entries exactly when the rubric repeats none and they are all of it |
| Scoring.ValidateScores | internal/judging/domain/score.go:27-50 | Accepts exactly when the rubric repeats no criterion, every entry names a criterion with a raw score in [1, max], and every criterion is covered; otherwise the error is the first wrong entry's, or says a criterion is missing |
| Scoring.WeightedTotal | internal/judging/domain/score.go:52-63 | The loop's quotient-and-product form is the sum of raw times weight over the entries, or not a number, exactly when an entry names no criterion or one whose maximum is zero |
| Scoring.TotalIsOverTheRubric | internal/judging/domain/score.go:52-63 | For scores that list each criterion once the total is the sum of raw times weight over the rubric, in any order of the rubric |
| Scoring.TotalIgnoresOrder | internal/judging/domain/score.go:52-63 | Neither the order of the entries nor that of the rubric changes the total |
| Scoring.RaisingOneScore | internal/judging/domain/score.go:59-62 | Raising one raw score raises the total by that much times the criterion's weight, so strictly when the weight is positive |
| Scoring.TotalIsBounded | internal/judging/domain/score.go:52-63 | Validated scores that list each criterion once total between the sum of the weights and the sum of weight times max |
| Judging.StoredTotal | internal/judging/usecase/scores.go:72-85 | The total recomputed from the rows an upsert stored is the total of its entries, in any order of the rubric |
| Judging.StepKeepsInv | internal/judging/usecase/scores.go:34-85 | Every repository call of every SubmitScores keeps: stored scores in range and of the rubric, and all criteria scored from the upsert on |
| Judging.CompletedMeansScored | internal/judging/usecase/scores.go:34-85 | Whatever calls interleave, a completed assignment has exactly one stored score for each criterion of its rubric, no other, and each in [1, max]; an assignment of an empty rubric is never completed |
| Judging.CompletedIff | internal/judging/usecase/scores.go:57-85 | In every run an assignment is completed if and only if some call stored its scores and then wrote its status, and is pending otherwise |
| Judging.SuccessListsEachOnce | internal/judging/usecase/scores.go:57-85 | A call that returns has completed its assignment and had exactly one entry per criterion, and its total is the sum over the rubric |
| Judging.TotalIsThatOfTheRows | internal/judging/usecase/scores.go:66-85 | The total a call returns is the one recomputed from the rows as it stored them |
| JudgingServices.ScoreRepository.UpsertAll | internal/judging/repository/pg_score_repo.go:18-49 | All rows are upserted in one statement, which fails and stores nothing exactly when the list is empty or proposes a criterion twice, or when the assignment or a criterion does not exist; the stored judge of an existing row is kept |
| JudgingServices.RubricReader.FindCriteriaByRubricID | internal/judging/repository/pg_readers.go:81-96 | Returns the rubric's criteria, each once, in any order; an unknown rubric has none |
| JudgingServices.AssignmentRepository.FindByIDAndJudge | internal/judging/repository/pg_assignment_repo.go:58-69 | Returns that row if it is this judge's, and none exactly when there is no such row of this judge |
| JudgingServices.AssignmentRepository.UpdateStatus | internal/judging/repository/pg_assignment_repo.go:132-136 | Changes the status of that row and nothing else |
| JudgingServices.SubmitScoresService.SubmitScores | internal/judging/usecase/scores.go:34-85 | With arbitrary requests between its repository calls the code makes the machine's script, succeeds exactly for the judge's own assignment, in time, with one entry in range for each criterion of a non-empty rubric, leaves the assignment completed, and returns the total of the rows as stored; each failure reports the first check that fails, and a status that cannot be written fails the request with its scores stored |

## Left out

- HTTP handlers, JSON, response envelopes, routing, configuration and the `web/` tree.
- SMTP and the mail queue, captcha, breached-password lookup, the object-storage client and the migrations runner: foreign calls. Objects are a set of names; of the mail only its failure appears.
- WebAuthn: its hard part is in a library. What it does to the tables is in the session machine: a passkey sign-in and the end of a registration ceremony insert a refresh token for a verified account, whether or not it is active, which is the machine's login with no more than that asked.
- Cryptography beyond the assumptions above, and the splitting of the authorization header.
- Validation and normalisation of email addresses and display names, password length, and the content types of files, which an upload carries as a flag.
- float64 rounding in the weighted total and in the sorted set's scores: totals are over the reals, scores are whole milliseconds.
- Windows of a rate limiter that are not whole milliseconds.
- Gallery, queue and detail queries, pagination and DTO mapping: easy members. The gallery includes disqualified submissions.
- Comments, votes, certificates, recusal, normalisation and joining or leaving teams: no code or no state that the properties above depend on.
- The event summaries of internal/events/repository/pg_event.go and internal/teams/repository/pg_event_reader.go are reads of the event row; updated-at and banner columns are not kept.
- The judging machine lets any fresh pending assignments appear; which ones a bulk assignment inserts is part of the lifecycle machine.
- Interleaved uploads: rows, objects and the cover URL are claimed to agree over serial runs. What interleaving leaves of the status of events and of submissions is proved in `StaleWrites.dfy` and `StaleSubmissions.dfy`.
- Storage errors inside the authentication and judging services, other than those of a logout and of the last write of a score submission: a call that fails ends the request, as `Abort` and `Crash` do in the machines.
- Event, team and submission services between other requests: `EventServices` and `SubmissionServices` are proved to make the serial steps, and `Granularity` ties those to uninterrupted calls of the interleaved machine. The authentication and judging services are proved under interference.
- EventServices.CreateTeamService.Create: takes the three invite codes as given; their generator and its failure are not modelled.
- Granularity.CreateEventAlone: compares calls whose two inserts do not fail; so does Granularity.CreateTeamAlone.
- StaleSubmissions.NeverBreaksIff: the checks of a change other than that of the draft (team, deadline, administrator) are not steps of the interleaved machine, which allows more changes than the code.
- SubmissionServices.EditingService: holds the update and submit services, which in the source are two classes over the same repositories.
