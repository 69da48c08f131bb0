# A model of the authentication service

This project models the service's users, one-time tokens and refresh tokens as rows of a
transactional store with optimistic locking, its eight use cases as transaction programs, and any
number of these programs running concurrently. It proves that the committed use cases of every
interleaving are serializable in commit order and derives from that the facts which span rows, use
cases and whole runs: rotation chains, exactly-once redemption, conservation of tokens, event safety,
freedom from deadlock. Use cases that fail are not all serializable; `Failures.FailureIsSerialIff` says
exactly which are. A second part models the
audit log in Redis, its paged reader, and the publisher in front of it.

`dafny verify dfyconfig.toml` checks everything.

## How it is built

* **Values.** `Strings`, `EmailValidator`, `PasswordValidator`, `Events`, `Serializer`, `Domain`: the
  validators, the events with their stored form, and the rules of the entities.
* **Programs.** `Stores` holds the committed rows with versions and says what a SELECT, an INSERT and a
  conditional UPDATE do. `UseCases` gives each use case as reads, a computation, one or two saves and
  the events to publish.
* **Serial histories.** `History` runs commits one at a time; `Evolution`, `Counting`, `Rotation`,
  `Chains`, `Redemption` and `Lifetimes` prove what holds after every one of them. `Effects` is a second
  account of the eight use cases, told from the stored rows and the request alone with no reference to the
  entities' rules: every error in its order, every column written, every event published. It is proved
  equal to what the programs do.
* **Concurrency.** `Machine` is a step relation: begin, read, compute with fresh draws, save, commit,
  second transaction of a refresh, publish one event. Every read and save meets the rows committed by
  then; a save holds its row (and an inserted user its email) until the transaction ends.
  `Consistency`, `Preservation`, `CommitStep` and `Serializability` reduce every run to a serial
  history. `Outcomes`, `Failures`, `Publication` and `Progress` treat conflicts, errors, events and
  liveness, `Delivery` what the queues hold in the end and in which order, and `Guarantees` restates the
  serial results for every run. `Completeness` is the converse of serializability: it builds a run for
  every serial history. `Scenarios` and `Races` hold concrete histories and interleaved runs, among them
  inputs at which the code departs from expectation.
* **Objects.** `Entities`, `Services`, `Repositories`, `Cases`, `EventQueues`, `EventsPage` are the
  classes of the service, with their fields updated in place; each method is proved against the
  function of `Domain`, `UseCases` or `EventQueues` that the theorems are about. A use case object runs
  on a session whose n-th statement meets arbitrary committed rows `env(n)`, and
  `Outcomes.FinishedRanItsProgram` shows that a use case of the machine ends as that same program does
  on the rows it met.

## Assumptions

* Clock readings are arbitrary inputs, one for each call; nothing depends on the clock not going back.
* Each use case draws ids and a raw token that nobody drew before.
* SHA-256 is injective, and a bcrypt hash verifies exactly the text that was hashed.
* The three tables are one map whose keys carry the table; `email` is unique, primary keys are unique.
* A failed save ends its transaction and releases what it held. Nothing else ends a transaction early:
  there is no abort between two statements.
* A save waits for the lock on its row even when the version it expects is already stale. PostgreSQL does
  not wait for a row that fails the test in its snapshot; there the conflict shows earlier, with the same
  error and, the version being stale for good, for the same cause.
* No use case saves the same row twice, so a save need only be compared with committed rows.
* Lifetimes of tokens are those of the default settings; only `Effects` and `Scenarios` use their values.
* Text is ASCII; a client address is an IPv4 network with a host, or something else.

## Where the code departs from its documentation or from expectation

The model follows the code.

* A refresh that succeeds pulls the events of both tokens and publishes none of them
  (`app/application/cases/user/refresh_token.py:83-92`).
* The Redis queue skips every event that is no `DomainEvent`, so neither the report of a reused token
  nor that of a suspicious revocation reaches any queue
  (`app/adapters/outbound/event_bus/redis/event_queue.py:40-45`).
* Client metadata of a refresh token is not stored, so every direct revocation counts as suspicious
  (`app/adapters/outbound/persistence/sqlalchemy/repositories/refresh_token.py:117-147`).
* `README.md:36-37` says that presenting a *revoked* token again raises `RefreshTokenReuse`; only a
  *replaced* one does, and a token revoked directly is reported as invalid
  (`app/core/domain/entities/refresh_token.py:139-154`). `UseCases.ReuseIffReplaced` says exactly when
  either happens; `Scenarios.RevokedTokenIsInvalidNotReused` is a case.
* Ending a refresh token reads the clock twice, so `revoked_at` may pass `expires_at`
  (`app/core/domain/entities/refresh_token.py:150-153`; `Effects.EndsAtSecondReading`, a case is
  `Scenarios.RevokedPastExpiry`).
* A password is stripped before it is hashed but not before it is checked, and "the new password must
  differ" compares the raw texts (`app/core/domain/validators/password.py:19`,
  `app/core/domain/entities/user.py:159-176`). So an accepted password can fail when typed again
  (`PasswordValidator.SetPasswordVerifiesIffTrimmed`; a case is `AcceptedPasswordCanFail`), and a change
  of password can keep the password (`Domain.ChangePasswordChangesIff`; a case is
  `ChangePasswordCanKeepThePassword`).
* An email is normalised when it is stored but not when it is looked up
  (`app/core/domain/validators/email.py:20`, `app/application/cases/user/register.py:53-58`). So a user may
  not be found under the text of the registration (`Guarantees.RegisteredTextIsFoundIffCanonical`; a case
  is `Scenarios.RegisteredTextFindsNobody`), and registering again with that text violates the unique
  column instead of asking for a new verification or reporting a known user
  (`Failures.IntegrityErrorAloneIff`; a case is `Scenarios.RegisteringAgainFails`).
* A verification that presented an unexpired verification token which another commit redeemed between its
  two reads fails with an error that it would not meet alone at its last read
  (`app/application/cases/user/verify_email.py:49-60`; `Failures.FailureIsSerialIff`, a run is
  `Races.RedemptionsRace`).
* Events are published after the commit and outside of it (`app/application/cases/user/verify_email.py:71-72`),
  so the audit log may list the events of two commits in the opposite order (a run is
  `Races.LogCanInvertCommits`); `Delivery.LogOrderIsPublishOrder` and `Delivery.LogFollowsCommits` say when it
  does not.

## Model

| member | source | states |
|---|---|---|
| Serializability.EveryRunIsSerializable | app/adapters/outbound/persistence/sqlalchemy/repositories/user.py:43-84 | For every interleaving of any number of use cases, the committed rows equal those of running the committed ones alone in commit order with the same draws, each computing the same saves and events; the history lists exactly the committed use cases, each once. |
| Completeness.HistoriesAreSerialOnes | app/adapters/outbound/persistence/sqlalchemy/transaction.py:4-15 | A sequence of commits is the history of some run if and only if each is what its use case does running alone in its turn, and they are of different use cases with different draws. |
| Completeness.RunsSolo | app/application/cases/user/register.py:51-74 | Where no lock is held, a use case that would commit alone can be run from its start to that commit. |
| Serializability.RunKeepsInvariant | app/adapters/outbound/persistence/sqlalchemy/repositories/one_time_token.py:46-85 | Every reachable state keeps the invariant: each use case did what its program says on the rows it met, its saves still stand, held locks and draws are disjoint, and the history records each committed use case once. |
| CommitStep.CommitIsLegal | app/application/cases/user/register.py:51-74 | When all saves of a use case have succeeded, everything it read, including the absence of a user with that email, is still so, and running it alone now gives the same plan. |
| CommitStep.NobodyIsCurrent | app/core/domain/validators/email.py:20-24 | While the normalised email is not taken, no lookup of the raw email finds a user. |
| Guarantees.HistoryOnlyGrows | app/adapters/outbound/persistence/sqlalchemy/transaction.py:8-15 | The history of commits of an earlier state of a run is a prefix of that of every later state. |
| Outcomes.FinishedRanItsProgram | app/adapters/outbound/persistence/sqlalchemy/transaction.py:4-15 | A use case that finished in an interleaving ended exactly as its transaction program does on the rows its statements met. |
| Outcomes.MetRowsHaveUniqueHits | app/adapters/outbound/persistence/sqlalchemy/repositories/refresh_token.py:35-43 | No lookup of a use case, in any run, ever has two hits. |
| Outcomes.UncommittedLeavesNothing | app/application/cases/user/password_recover.py:69-82 | A use case that did not commit has no commit in the history and no row under any id it drew; a losing rotation leaves no successor, and a recovery that fails at the token leaves no trace. |
| Outcomes.ConflictHasCause | app/adapters/outbound/persistence/sqlalchemy/repositories/one_time_token.py:64-82 | If a use case ends in ConcurrencyError, another one committed a write to that very row after this one read it and before it tried to save it. |
| Failures.FailureIsSerialIff | app/application/cases/user/verify_email.py:49-60 | A use case that fails before it saves raises the error of running alone on the rows of its last read, except exactly a verification that presented an unexpired verification token which another commit redeemed between its two reads; that one ends in "already verified" where alone it would end in an invalid token. |
| Failures.CommitsIffUndisturbed | app/adapters/outbound/persistence/sqlalchemy/repositories/user.py:50-84 | A use case that computed a plan commits if and only if, at each save it made, nobody had committed a write to that row since this use case read it, and no email it inserts was taken. |
| Failures.IntegrityErrorIff | app/adapters/outbound/persistence/sqlalchemy/models/user.py:21-23 | A finished use case ended in IntegrityError if and only if it is a registration that found nobody and whose normalised email is taken when it saves. |
| Failures.CanonicalIntegrityErrorHasCause | app/application/cases/user/register.py:53-74 | With canonical text, IntegrityError means that another registration of that email was committed between the read and the save. |
| Failures.RegistrationAlone | app/application/cases/user/register.py:51-74 | The outcome of a registration that runs alone, case by case: known verified user, new request, validation error, taken email, new user. |
| Failures.IntegrityErrorAloneIff | app/application/cases/user/register.py:53-74 | Run alone, a registration ends in IntegrityError if and only if password and email are valid, the normalised email is taken and the text is not that normal form. |
| Scenarios.RefreshingHistoryIsLegal | app/application/cases/user/refresh_token.py:57-89 | A concrete legal history: register, verify, log in, refresh. |
| Scenarios.RevokedTokenIsInvalidNotReused | app/core/domain/entities/refresh_token.py:148-151 | After a concrete committed revocation, presenting the token again is invalid and not reuse, at any time and from any client. |
| Scenarios.RegisteredTextFindsNobody | app/application/cases/user/register.py:53-58 | After a committed registration as A@b.c, nobody is found under A@b.c. |
| Scenarios.RegisteringAgainFails | app/application/cases/user/register.py:53-74 | Registering as A@b.c once more ends in IntegrityError. |
| Scenarios.RevokedPastExpiry | app/core/domain/entities/refresh_token.py:150-153 | A concrete refresh checked at the deadline stores a revocation time past it. |
| Scenarios.PaddedRegistration | app/core/domain/validators/password.py:19-44 | Registering with a blank after the password stores the password without it. |
| Scenarios.RecoveryUnderOtherCapitalsFails | app/application/cases/user/password_recover_request.py:55-57 | A recovery requested under A@b.c finds nobody while a@b.c is a verified user. |
| Scenarios.RacedRedemptionIsNotSerial | app/application/cases/user/verify_email.py:49-60 | A redemption that meets another one between its reads finds the email verified; alone it succeeds before the other and finds the token used after it. |
| Races.RedemptionsRace | app/application/cases/user/verify_email.py:49-60 | A concrete interleaved run of such a race: the second redemption fails as it would not alone at its last read. |
| Outcomes.ReuseIffRotatedBefore | app/application/cases/user/refresh_token.py:94-111 | A finished refresh ends in RefreshTokenReuse if and only if a rotation of the token it read was committed before that read; it then hands over exactly one RefreshTokenReuseDetected with the right user and token, and commits nothing. |
| Outcomes.ReportFindsTheToken | app/application/cases/user/refresh_token.py:96-107 | The second transaction of a refresh always finds the token that the first one read. |
| Progress.NoDeadlock | app/application/cases/user/password_recover.py:80-82 | In every reachable state with an unfinished use case, a step other than a new arrival is enabled. |
| Progress.EveryRunTerminates | app/adapters/outbound/persistence/sqlalchemy/transaction.py:13-15 | Without new arrivals, every continuation of every run is at most as long as a total rank of its state. |
| Progress.EveryRunCanFinish | app/adapters/outbound/persistence/sqlalchemy/transaction.py:8-15 | Every reachable state has a continuation without arrivals after which every use case has ended and pushed all its events. |
| Progress.StuckOnlyWhenOver | app/adapters/outbound/persistence/sqlalchemy/transaction.py:8-15 | A continuation that cannot go on but by arrivals has ended every use case. |
| Progress.PlansSaveInOrder | app/application/cases/user/verify_email.py:67-69 | Every use case saves in one order: a user row before a one-time-token row; any other second save inserts under its own fresh id. |
| History.LegalStepHasShape | app/application/cases/user/password_recover_request.py:53-73 | The outline of what each kind of use case writes on well-formed rows, as far as the whole-run lemmas rest on it: which existing row, expecting its version, and which row is inserted. The lemmas of Effects give every column. |
| Effects.RegistrationAnswers | app/application/cases/user/register.py:51-74 | Run alone, a registration raises exactly the listed errors in their order, or saves the listed columns and publishes the listed events: a new user with normalised email and the hash of the stripped password, or a new token for a pending one. |
| Effects.VerificationAnswers | app/application/cases/user/verify_email.py:47-69 | The same for a verification: token found, purpose, use and expiry, state of the user; then both rows and the event. |
| Effects.LoginAnswers | app/application/cases/user/login.py:56-90 | The same for a login: user found, active, verified, password as typed; then the new token with its deadline, and the event with the metadata of the client. |
| Effects.RefreshAnswers | app/application/cases/user/refresh_token.py:58-89 | The same for a refresh: reuse before validity, revoked at the second clock reading, linked to a successor of the same user. |
| Effects.RevocationAnswers | app/application/cases/user/revoke_token.py:52-89 | The same for a direct revocation, with its two events. |
| Effects.ChangeAnswers | app/application/cases/user/change_password.py:47-65 | The same for a change of password of the subject of the access token. |
| Effects.RecoveryRequestAnswers | app/application/cases/user/password_recover_request.py:53-73 | The same for a recovery request, looked up by the text as given. |
| Effects.RecoveryAnswers | app/application/cases/user/password_recover.py:54-82 | The same for a recovery: password errors before token errors, then both rows and the event. |
| Effects.EndsAtSecondReading | app/core/domain/entities/refresh_token.py:112-154 | Every committed refresh or revocation stores the second clock reading as the revocation time of the token that was presented, links it only if it was a refresh, and changes no other column. |
| Effects.NewUserRow | app/core/domain/entities/user.py:73-80 | Every committed registration of a new user stores the normalised email, active, unverified, with its clock reading; exactly the stripped password verifies. |
| Effects.SubjectChangesPassword | app/application/cases/user/change_password.py:47-65 | Every committed change of password concerns the very subject; the old text verified as given, and afterwards exactly the stripped new text does. |
| Effects.RecoveryRequestSucceedsIff | app/application/cases/user/password_recover_request.py:53-73 | Run alone, a recovery request succeeds if and only if a verified user is stored under exactly the given text, and concerns that user. |
| Effects.CommitPublishes | app/application/cases/user/refresh_token.py:83-92 | What each of the eight kinds of commit publishes, in order, about the rows it saves. |
| Stores.SaveTouchesOneRow | app/adapters/outbound/persistence/sqlalchemy/repositories/one_time_token.py:53-85 | A save that succeeds inserts version 1 under a free key and a free email, or replaces the expected version by the next one keeping the purpose of a one-time token; every other row stays. |
| Evolution.HistoryKeepsInvariant | app/adapters/outbound/persistence/sqlalchemy/models/user.py:18-32 | Every store of a history is well formed: owners exist, emails are canonical, lookups are unique, a replaced token is revoked. |
| Evolution.StepEvolves | app/adapters/outbound/persistence/sqlalchemy/repositories/refresh_token.py:54-96 | A commit leaves the rows it does not save, takes the others from version v to v + 1 in a permitted way, and inserts at version 1 under a drawn id. |
| Evolution.RowsEvolve | app/adapters/outbound/persistence/sqlalchemy/repositories/user.py:61-84 | Over any stretch of a history a row either stays as it is or reaches a higher version by permitted changes; used and revoked rows stay. |
| Counting.VersionCountsCommits | app/adapters/outbound/persistence/sqlalchemy/repositories/refresh_token.py:54-96 | The version of a row is the number of commits that wrote it, so versions run 1, 2, 3 without gaps and no update is lost. |
| Counting.VersionDeterminesContents | app/adapters/outbound/persistence/sqlalchemy/repositories/refresh_token.py:72-93 | The same id and version, anywhere in a history, mean the same contents. |
| Guarantees.VersionsInEveryRun | app/adapters/outbound/persistence/sqlalchemy/repositories/user.py:50-84 | Both facts about versions, and that rows are never lost, for every concurrent run. |
| Rotation.LegalTokenStep | app/core/domain/services/refresh_token_rotation.py:33-48 | What a commit does to the refresh tokens: it ends at most the one it presents, which was live and not replaced, links it to the one it creates for the same user, and leaves all others. |
| Rotation.TokensAreConserved | app/core/domain/entities/refresh_token.py:112-154 | Tokens = logins + rotations, replaced tokens = rotations, unrevoked tokens = logins - direct revocations, counting commits. |
| Rotation.UsableTokensNeverExceedLogins | app/core/domain/entities/refresh_token.py:156-163 | At no time are more tokens usable than logins were committed and not directly revoked. |
| Guarantees.TokensAreConservedInEveryRun | app/application/cases/user/refresh_token.py:57-89 | Conservation in every state of every concurrent run. |
| Rotation.OneWinnerPerToken | app/application/cases/user/refresh_token.py:60-89 | Of all refreshes and revocations of a token at most one commits, and one did exactly if the token is revoked. |
| Rotation.ReplacedIffRotated | app/core/domain/entities/refresh_token.py:125-137 | A token is replaced if and only if a rotation of it was committed. |
| Rotation.RevocationIsFinal | app/core/domain/entities/refresh_token.py:148-153 | Once revoked, a token never changes again: revocation time and successor are write-once. |
| Guarantees.OneWinnerInEveryRun | app/application/cases/user/revoke_token.py:52-89 | The single winner and the finality of revocation, in every concurrent run. |
| Chains.LinkLeadsOn | app/core/domain/services/refresh_token_rotation.py:33-41 | A link points to an existing token of the same user, made later by the commit that set the link. |
| Chains.LinksAreInjective | app/core/domain/services/refresh_token_rotation.py:40-41 | No two tokens share a successor. |
| Chains.PredecessorIffRotated | app/application/cases/user/refresh_token.py:67-74 | A token has a predecessor exactly if a rotation made it; otherwise a login made it. |
| Chains.WalkIsSimpleChain | app/core/domain/entities/refresh_token.py:125-137 | Following the links from any token visits tokens of one user, all revoked but possibly the last, never twice the same, and stops at a token without successor. |
| Chains.ChainsPartitionTokens | app/application/cases/user/refresh_token.py:57-89 | The chains starting at login-made tokens partition all tokens. |
| Chains.OneLiveTokenPerLogin | app/application/cases/user/login.py:67-90 | Of the tokens that descend from one login at most one is unrevoked. |
| Guarantees.ChainsInEveryRun | app/application/cases/user/refresh_token.py:57-89 | The simple finite chain from any token, in every state of every concurrent run. |
| Redemption.UsedTokensCountRedemptions | app/application/cases/user/password_recover.py:54-82 | The used tokens of a user for a purpose are as many as the commits that redeemed one. |
| Redemption.VerifiedIffOneUsedToken | app/application/cases/user/verify_email.py:47-69 | A user has exactly one used VERIFY_EMAIL token if verified and none otherwise. |
| Guarantees.RedeemedOnceInEveryRun | app/application/cases/user/verify_email.py:47-69 | Both counts in every state of every concurrent run, however many tokens are redeemed at once. |
| Redemption.NoTokenAfterVerification | app/application/cases/user/register.py:53-74 | After a user's verification commits, no VERIFY_EMAIL token of that user does. |
| Redemption.LoginCommitsAgainstCurrentUser | app/application/cases/user/login.py:56-90 | A login's token is committed only while the committed user row is active, verified and accepts the password. |
| Lifetimes.TokensEndInTime | app/core/domain/entities/refresh_token.py:84-98 | A refresh token is rotated or revoked only on presenting the raw token an earlier login or rotation drew for it, within its lifetime counted from then. |
| Lifetimes.OneTimeTokensAreRedeemedInTime | app/core/domain/entities/one_time_token.py:87-113 | A one-time token is redeemed only on presenting the raw token that an earlier commit drew for the same user and purpose, within its lifetime. |
| Lifetimes.RefreshSucceedsIff | app/core/domain/entities/refresh_token.py:139-154 | Run alone, a refresh succeeds if and only if a live token with that text has not expired; now = expiry still counts. |
| UseCases.ReuseIffReplaced | app/core/domain/entities/refresh_token.py:148-151 | A refresh is classified as reuse exactly if the token was replaced, expired or not; as invalid exactly if it is not replaced but revoked or expired; it is accepted exactly if usable. |
| UseCases.EveryRevocationIsSuspicious | app/application/cases/user/revoke_token.py:60-86 | Every direct revocation that succeeds publishes a suspicion report and then the revocation, whatever the client. |
| Publication.QueuesHoldWhatWasPushed | app/adapters/outbound/event_bus/in_memory/event_publisher.py:24-39 | In every run, the audit log restricted to one use case is exactly the domain events it pushed so far, in order and once each; likewise the notification queue. |
| Delivery.OverMeansDelivered | app/adapters/outbound/event_bus/in_memory/event_publisher.py:24-39 | Once a use case is over, its entries in the two queues are exactly the domain events and the notifications of its committed plan, in order; without a commit there are none. |
| Delivery.EveryRunCanDeliver | app/application/cases/user/verify_email.py:71-72 | Every run can go on, without arrivals, until that holds of all its use cases. |
| Delivery.LogOrderIsPublishOrder | app/adapters/outbound/event_bus/redis/event_queue.py:46-47 | An entry of one use case stands before one of another in the audit log if and only if the steps that publish come in that order. |
| Delivery.LogFollowsCommits | app/application/cases/user/verify_email.py:47-72 | If the first use case is over before the second commits, no entry of the second stands before one of the first. |
| Races.LogCanInvertCommits | app/application/cases/user/register.py:76-77 | A concrete run whose log lists a verification before the registration that was committed earlier. |
| Publication.AuditLogIsSafe | app/core/domain/events/serializer.py:3-5 | No event with a raw token and no security report is ever in the audit log; each entry was handed over by a committed use case. |
| Publication.HandedOverBy | app/application/cases/user/refresh_token.py:94-110 | Whatever a finished use case hands over comes from a commit, or is the report of a reused token. |
| Publication.RefreshSuccessPublishesNothing | app/application/cases/user/refresh_token.py:83-92 | A refresh that committed has no entry in any queue. |
| Publication.NoticesCarryCommittedTokens | app/core/domain/services/email_verification.py:29-40 | Every queued notification carries the raw token whose hash its use case committed for the same user and purpose, and goes to that user's email. |
| EmailValidator.AcceptsExactlyWellFormed | app/core/domain/validators/email.py:4-24 | Accepted is exactly text that, stripped and lower-cased, has one '@', a nonempty local part and a domain with an inner '.'; the result is canonical. |
| EmailValidator.EmailOutcome | app/core/domain/validators/email.py:14-24 | Which error or which normalised text every argument gives. |
| EmailValidator.CanonicalIffUnchanged | app/core/domain/validators/email.py:7-24 | Canonical emails are exactly the fixed points of the validator, which is idempotent. |
| Guarantees.OnlyCanonicalEmailsAreFound | app/adapters/outbound/persistence/sqlalchemy/repositories/user.py:23-31 | A lookup of an email that is not canonical never finds a user. |
| Guarantees.RegisteredTextIsFoundIffCanonical | app/application/cases/user/register.py:53-58 | After a registration, looking up its own text finds a user if and only if that text was canonical. |
| PasswordValidator.SetPasswordVerifiesIffTrimmed | app/core/domain/validators/password.py:19-44 | A password just set verifies when typed again exactly if it has no blank at either end. |
| PasswordValidator.AcceptedPasswordCanFail | app/core/domain/validators/password.py:19-44 | A concrete accepted password that fails when it is typed again. |
| PasswordValidator.PasswordOutcome | app/core/domain/validators/password.py:16-44 | Which error or which hash every argument gives, by the length of the stripped text between 8 and 255. |
| PasswordValidator.PaddingIsIgnored | app/core/domain/validators/password.py:19-33 | Padding with blanks changes neither whether a password is accepted nor what is hashed. |
| Domain.ChangePasswordChangesIff | app/core/domain/entities/user.py:159-176 | A successful change of password changes the hash if and only if the stripped new text differs from the old password. |
| Domain.ChangePasswordCanKeepThePassword | app/core/domain/entities/user.py:170-176 | A concrete change of password that succeeds and changes nothing. |
| Domain.VerifiesOnce | app/core/domain/entities/user.py:84-128 | Verifying works once, ends the requests for it and opens those for recovery. |
| Domain.UsedOnce | app/core/domain/entities/one_time_token.py:87-113 | A used one-time token is refused at every later time and for every purpose. |
| Domain.EndedOnce | app/core/domain/entities/refresh_token.py:112-154 | A refresh token is ended once and linked once; only after the link is another use reuse. |
| Domain.RiskIsZeroIff | app/core/domain/services/refresh_token_security_policy.py:35-64 | No risk is seen exactly between addresses of one /24 network without a known mismatch. |
| Serializer.RoundTripIffDomain | app/core/domain/events/serializer.py:58-75 | An event is read back as it was written exactly if it is a domain event; any other one is an unknown type. |
| Serializer.SerializeIsInjective | app/core/domain/events/serializer.py:58-62 | Different domain events have different stored forms. |
| Serializer.UserEventForms | app/core/domain/events/serializer.py:58-62 | The type name and the fields under which each event of a user is stored. |
| Serializer.TokenEventForms | app/core/domain/events/serializer.py:58-62 | The same for the events of a refresh token, with null for missing metadata. |
| EventQueues.RedisEventQueue.Push | app/adapters/outbound/event_bus/redis/event_queue.py:39-48 | Appends a domain event to the log and drops any other event. |
| EventQueues.RedisEventQueue.Get | app/adapters/outbound/event_bus/redis/event_queue.py:50-78 | With any pushes between LLEN and LRANGE, the answer is the in-memory queue's page of the log at LLEN (descending, or beyond the end) or at LRANGE (other ascending pages), for all offsets, limits and directions. |
| EventQueues.RedisEventQueue.Decode | app/adapters/outbound/event_bus/redis/event_queue.py:71-78 | The loop decodes every stored item back to its event and skips none. |
| EventQueues.RangeFromTail | app/adapters/outbound/event_bus/redis/event_queue.py:60-65 | The inclusive range computed from an earlier length, reversed, is the descending page of the list as it was then. |
| EventQueues.InMemoryEventQueue.Get | app/adapters/outbound/event_bus/in_memory/event_queue.py:24-32 | Returns the page of the log; the specification of both queues. |
| EventQueues.PageAt | app/adapters/outbound/event_bus/in_memory/event_queue.py:30-32 | Which entry stands at each position of a page, in both directions, and where a page ends. |
| EventQueues.EventPublisher.Publish | app/adapters/outbound/event_bus/in_memory/event_publisher.py:24-39 | Appends the domain events to the audit log and the notifications to the notification queue, each in order. |
| EventsPage.ViewPage | app/adapters/inbound/http/routers/events.py:72-91 | The page arithmetic: what a view shows, and that has_next is an exact probe of the log at one later instant. |
| EventsPage.FollowPages | app/adapters/inbound/http/routers/events.py:72-91 | A client that views page after page, with any pushes within and between the views, performs a walk of the kind the theorems are about, complete once has_next is false. |
| EventsPage.EveryEventIsSeen | app/adapters/inbound/http/routers/events.py:72-91 | A reader who follows has_next from page 1 to the end comes, for each entry that was logged when it started, to the page that shows that very entry in its place, whatever is pushed meanwhile. |
| EventsPage.WalkIsBounded | app/adapters/inbound/http/routers/events.py:88-91 | While the log does not outgrow n entries, no walk views more than max(1, ceil(n / 10)) pages; so it ends once pushes stop. |
| EventsPage.FixedLogIsPagedExactly | app/adapters/inbound/http/routers/events.py:72-90 | Over a fixed log the pages joined are the reversed log, in exactly max(1, ceil(length / 10)) pages. |
| Entities.User.ChangePassword | app/core/domain/entities/user.py:159-176 | Updates hash and pending events as the rule says, and nothing on an error. |
| Entities.User.Create | app/core/domain/entities/user.py:59-82 | A new user with normalised email, hashed password and one UserCreated event, or the validation error. |
| Entities.OneTimeToken.Use | app/core/domain/entities/one_time_token.py:87-103 | Marks a usable token of that purpose used; any error leaves it as it was. |
| Entities.RefreshToken.Use | app/core/domain/entities/refresh_token.py:139-154 | Reuse before validity, two clock readings, and the effect on fields and events. |
| Entities.RefreshToken.Revoke | app/core/domain/entities/refresh_token.py:112-123 | Sets the revocation time and appends the event, or raises and changes nothing. |
| Services.Rotate | app/core/domain/services/refresh_token_rotation.py:14-48 | Creates a successor for the same user without client metadata, links the old token to it, and returns it with its raw text and an access token for that user. |
| Repositories.Session.SelectOne | app/adapters/outbound/persistence/sqlalchemy/repositories/user.py:23-41 | One statement; finds the row that matches, or none, and raises if there are two. |
| Repositories.UserRepository.Save | app/adapters/outbound/persistence/sqlalchemy/repositories/user.py:43-84 | Inserts at version 1, or updates if the version is the expected one, and keeps the entity's version in step. |
| Repositories.OneTimeTokenRepository.Save | app/adapters/outbound/persistence/sqlalchemy/repositories/one_time_token.py:46-85 | The same for one-time tokens. |
| Repositories.RefreshTokenRepository.Save | app/adapters/outbound/persistence/sqlalchemy/repositories/refresh_token.py:54-96 | The same for refresh tokens. |
| Repositories.RefreshTokenRepository.GetByString | app/adapters/outbound/persistence/sqlalchemy/repositories/refresh_token.py:25-43 | Loads the token with its version and without client metadata; null if there is none, the error if there are two. |
| Repositories.Transaction.Exit | app/adapters/outbound/persistence/sqlalchemy/transaction.py:13-15 | Makes the saves durable on a normal exit and drops them on an exception. |
| Cases.VerifyEmailCase.Execute | app/application/cases/user/verify_email.py:34-72 | Ends as the program does on the rows met: all saves durable and events routed, or no trace. |
| Cases.RegisterUserCase.Execute | app/application/cases/user/register.py:39-77 | The same for a registration. |
| Cases.LoginUserCase.Execute | app/application/cases/user/login.py:41-96 | The same for a login; on success the pair returned names the user and holds the raw text of the refresh token saved, otherwise there is none. |
| Cases.RevokeTokenCase.Execute | app/application/cases/user/revoke_token.py:39-92 | The same for a direct revocation. |
| Cases.ChangePasswordCase.Execute | app/application/cases/user/change_password.py:34-68 | The same for a change of password. |
| Cases.PasswordRecoverRequestCase.Execute | app/application/cases/user/password_recover_request.py:41-76 | The same for a recovery request. |
| Cases.PasswordRecoverCase.Execute | app/application/cases/user/password_recover.py:40-85 | The same for a recovery, which changes the user before it checks the token. |
| Cases.PasswordRecoverCase.Redeem | app/application/cases/user/password_recover.py:69-78 | Changes the password, uses the token, and pulls the user's events, in that order of errors. |
| Cases.RefreshTokenCase.Execute | app/application/cases/user/refresh_token.py:40-111 | Saves as the program does and returns the new pair; hands nothing over on success and exactly the report of its second read on reuse, which no queue keeps. |
| Cases.RefreshTokenCase.ReuseEvents | app/application/cases/user/refresh_token.py:95-107 | The second transaction saves nothing and reports the token it finds. |
| Events.ReportIsDropped | app/adapters/outbound/event_bus/redis/event_queue.py:40-45 | A list of security reports leaves both queues as they were. |

## Left out

- HTTP routers, schemas, dependency wiring, rendering and status codes: framework plumbing.
- Access tokens: a token is the subject it was issued to, without signature, claims or expiry; a change of password receives the verified subject, or none for an invalid token.
- SHA-256, bcrypt, UUID and random generation: replaced by the assumptions above; raw token lengths are not modelled.
- SQLAlchemy, asyncpg and Redis internals (identity map, autoflush, foreign-key share locks, isolation other than READ COMMITTED): only reads, conditional updates, held rows, commit and rollback.
- Column widths: an email of more than 255 characters is refused by the database, not by the validator, and the model stores it.
- A crash or cancellation between a commit and its publication, or in the middle of a statement.
- Two rows that match one lookup of a use case: the repositories raise, but the use case objects take for granted that it does not happen, as `Outcomes.MetRowsHaveUniqueHits` shows for every run.
- A session shared by several use cases at once: each use case has its own.
- JSON syntax, field validation beyond type and presence, and event timestamps: a stored event is a tagged set of fields.
- Deleting rows, activating and deactivating users, listing a user's tokens: no use case calls them.
- Migrations: fixed scripts over a concrete schema.
- Configurable lifetimes: the default settings are constants of the model.
- Non-ASCII text, so no Unicode case mapping or blanks beyond ASCII; use-case inputs that are not text.
- Parsing of client addresses and headers.
