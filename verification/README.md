# authpad: models and proofs

authpad is a Go authentication service. Its hard logic is a set of small protocols over shared rows:
conditional updates, one-time secrets, compensating rollbacks and per-organization authority. This project
models that logic in Dafny and proves what the protocols keep over every run.

How the model is built:

- One SQL statement is one atomic step on a table (a `map`). A service operation is a sequence of such steps.
  Operations interleave with each other and with every other writer; a step may fail where the code can fail.
- There is one monotone clock. Instants and durations are integers (nanoseconds).
- A stored hash is `Sha256(preimage)`, a free constructor: distinct secrets have distinct hashes. Secrets and
  row ids are drawn fresh. The S256 digest in the PKCE results is a parameter: any function to 32 bytes.
- Text is ASCII where case folding and trimming matter. URLs, addresses and IPs arrive parsed.
- Repositories, services and the limiter are classes whose methods change fields as the Go code does. Each
  method's contract ties the new state to a function of the old one; lemmas are proved about those functions.
  Beside those functions a contract also says, on the rows, the request and the store's answers alone, exactly when
  the call succeeds and what it leaves; ghost predicates no code uses (`Redeemable`, `SettlesOn`, `Admissible`,
  `MayChange` and the like) name the parts.
  The magic-link service carries a ghost history, and every call extends it by steps of the protocol, so what
  is proved of all runs holds of every sequence of calls.

Files, by subject:

| files | subject |
|---|---|
| `MagicLink`, `MagicLinkRuns`, `MagicLinkAgreement` | the link / code / PKCE protocol, its invariants, agreement of exchanges with requests |
| `MagicLinkPurge`, `MagicLinkSingleUse`, `MagicLinkService` | purge transparency, burning, the running service |
| `MagicLinkRenamed` | the run in which an exchange answers with another address |
| `TakeOver` | hardening an unverified account under faults |
| `Sessions`, `SessionRuns`, `SessionLimits`, `AuthService` | session table, results over runs, limits under rotation, the running service |
| `MfaGate`, `GateOpens`, `RecoveryCodes`, `MfaService` | the MFA gate, who it lets through, recovery codes, the running service |
| `RedeemSaga`, `RedeemService` | invite redemption across two databases |
| `OrgTables`, `OrgOwners`, `OrgOwnerCases`, `OrgCatalog`, `OrgService` | membership authority, owners, how an owner is lost, catalogs, the running service |
| `WindowLimiter`, `LimiterBounds` | the fixed-window limiter |
| `ClientIp`, `Argon2`, `Base64`, `Pkce`, `Digits` | proxy walk, hash strings, encodings, positional numbers |
| `Runs`, `Prelude` | carrying out a sequence of actions, shared vocabulary |

Where the code and its comments or apparent intent differ, the code is modelled:

- `ValidCodeChallenge` is documented as accepting the encoding of a SHA-256 digest. It accepts any 43 letters of
  the alphabet; `Pkce.WellFormedChallengeEncodesDigestIff` says exactly which of those encode a digest.
- The lifetime cap in `CreateSessionWithTTL` can never apply (`Sessions.CreationCapNeverApplies`).
- Rotation moves the expiry away from the creation time, so a session can turn into a remembered one and escape the
  age and idle limits. `SessionLimits.AgeLimitGivesIff` and `SessionLimits.IdleLimitGivesIff` say for which
  configurations, exactly. A session found idle can also come back when the revoking write was lost and a code
  exchange issues it a token (`SessionRuns.IssueRevivesAnIdleSession`).
- Listing factors does not read their secrets, so a login code given without a factor id is checked against
  empty TOTP secrets (`MfaService.SecretsPlayNoPart`, `MfaService.RightCodeNeedsItsFactorId`).
- Accepting an invitation overwrites an owner's role: the creator who accepts one leaves the organization without an
  owner (`OrgOwnerCases.SoleOwnerCanLockOut`). A removal that read the creator's row before the creation was complete
  can do the same (`OrgOwnerCases.CreatorCanBeOvertaken`). `OrgOwners.OwnersAreTheCreator` says there is no
  other way, as long as the host names no owner and gives the creator no other role.
- The last-owner rule reads and writes in separate statements. Once the host has named a second owner, two owners
  removing each other leave nobody (`OrgOwnerCases.HostNamedOwnersCanLoseBoth`);
  `OrgOwnerCases.LateWriteKeepsAnOwnerIff` says when a write leaves an owner.
- An exchange returns another address than the requested one exactly when the account had been anonymized by the time
  the exchange read it (`MagicLinkAgreement.AddressKeptIffNotRenamed`); it answers only if the host has set that
  account active again (`MagicLinkRenamed.RenamedAddressIsReturned` is such a run).
- `ClientIP` is documented to use the last good hop when an entry does not parse. The code returns the peer, and so
  does the model (`ClientIp.WalkBackIsDecidingHop`).

## Model

| member | source | states |
|---|---|---|
| MagicLinkAgreement.ExchangeAgreesWithRequest | internal/service/magic_link_code_service.go:85-150 | In every interleaving of requests, verifies, exchanges, purges and all other writers, each successful exchange goes back to one stored request: its challenge is the S256 challenge of the presented verifier, its organization is the one returned, its destination has the presented origin, and the code was consumed less than 60 s after it was stamped; the address returned is the requested one up to case, or the account's placeholder when the account had been anonymized by the exchange's read of it |
| MagicLinkAgreement.AddressKeptIffNotRenamed | internal/service/magic_link_code_service.go:142-149 | Unless the link was requested for the placeholder itself, the returned address is the requested one exactly when the account had not been anonymized at that read |
| MagicLinkAgreement.CodesGoWhereConfigured | internal/handler/magic_link_handlers.go:233-244 | In every run each minted code is bound to an origin of the allowlist, or that of the default redirect, or of the callback when there is no default; it is the requested one exactly when the link was asked for with a plain allowlisted URL |
| MagicLinkAgreement.ExchangesAreInjective | internal/service/magic_link_code_service.go:117-150 | Two exchanges never go back to the same code nor to the same link token, so the correspondence with requests is one to one |
| MagicLinkAgreement.ConsumedOnceInTime | internal/repository/auth/magic_link_repo.go:44-59 | Over every run each token and each code is consumed at most once, and only before it expires |
| MagicLinkRenamed.RenamedAddressIsReturned | internal/repository/auth/user_auth_repo.go:81-101 | For every address, verifier and configuration there is a run from the start in which the account is anonymized and set active again while its exchange is under way, and the exchange answers with the placeholder |
| MagicLinkAgreement.StepKeepsInv | internal/service/magic_link_service.go:206-334 | Every statement of every operation, and of every other writer, keeps the protocol invariant: consumed tokens and codes have one holder, rows come from what was asked or minted, sessions and addresses stay with their user |
| MagicLinkAgreement.AccountMoves | internal/service/magic_link_service.go:376-397 | Each statement of finding or creating the account, including rollback and the second lookup, keeps the account that goes on equal, up to case, to the token's address |
| MagicLinkAgreement.SessionMoves | internal/handler/magic_link_handlers.go:157-263 | Each statement from the guards to the login hook keeps the session that goes on bound to that account |
| MagicLinkAgreement.MintStepKeeps | internal/service/magic_link_code_service.go:85-112 | Storing a code, or dropping the session because it cannot be stored, keeps the invariant: one code per consumed token, bound to its session, organization, challenge and origin |
| MagicLinkRuns.QuietKeepsProtocol | internal/repository/auth/magic_link_code_repo.go:60-67 | Deleting token or code rows, and any step that consumes and records nothing, keeps the protocol invariant |
| MagicLinkRuns.TakeTokenKeepsProtocol | internal/repository/auth/magic_link_repo.go:44-59 | Consuming a live token keeps the invariant: its holder is new and unique |
| MagicLinkRuns.TakeCodeKeepsProtocol | internal/repository/auth/magic_link_code_repo.go:44-58 | Consuming a live code keeps the invariant whether or not its checks pass afterwards |
| MagicLinkPurge.PurgeIsInvisible | internal/service/magic_link_service.go:446-460 | Taking every purge out of a run changes nothing except that rows already expired are still there: same processes, users, sessions, requests, codes minted, exchanges and consumptions |
| MagicLinkPurge.PurgeChangesNoResult | internal/service/magic_link_service.go:446-460 | With and without the purges, every exchange is the same and any later attempt to consume a token or code gets the same answer |
| MagicLinkPurge.StepLags | internal/service/magic_link_service.go:206-334 | Each step of the purged system is matched by the same step of the never-purging one |
| MagicLinkPurge.PurgeIsExact | internal/repository/auth/magic_link_repo.go:61-68 | After `PurgeExpired`, whatever was purged before, exactly the unexpired rows of the system that never purges are left |
| MagicLinkSingleUse.WrongProofBurnsCode | internal/service/magic_link_code_service.go:117-134 | A well-formed attempt on a live code with the wrong origin or verifier burns it: whatever happens afterwards, that code is never exchanged |
| MagicLinkSingleUse.FailedUseHasNoExchange | internal/service/magic_link_code_service.go:117-134 | In every run, a code whose consumption failed its checks has no exchange |
| MagicLinkSingleUse.FutileAttemptsCostNothing | internal/service/magic_link_service.go:275-295 | A verify for another or unknown tenant, and an exchange with a malformed verifier or code, cost nothing: with or without the attempt every run ends in the same state |
| MagicLinkService.MagicLinkRepo.Consume | internal/repository/auth/magic_link_repo.go:44-59 | Returns and marks the row exactly when it is live, unconsumed and of the given organization; otherwise the table is untouched |
| MagicLinkService.MagicLinkRepo.Create | internal/repository/auth/magic_link_repo.go:33-39 | Stores a row exactly when its hash is new and the store answers |
| MagicLinkService.MagicLinkRepo.DeleteExpired | internal/repository/auth/magic_link_repo.go:61-68 | Deletes exactly the rows that expired before the given instant and counts them |
| MagicLinkService.MagicLinkCodeRepo.Consume | internal/repository/auth/magic_link_code_repo.go:44-58 | Returns and marks the code exactly when it is live and unconsumed |
| MagicLinkService.MagicLinkCodeRepo.DeleteExpired | internal/repository/auth/magic_link_code_repo.go:60-67 | Deletes exactly the codes that expired before the given instant and counts them |
| MagicLinkService.Service.Process | internal/service/magic_link_service.go:206-258 | A token row is stored, and mail sent, exactly when both limits allow, the address has 1 to 254 characters, the tenant exists, the challenge is 43 URL-safe letters and the insert succeeds; the row repeats the request, keeps the redirect exactly when it is plain and allowlisted, and lives for the configured lifetime or 15 minutes |
| MagicLinkService.Service.ConsumeToken | internal/service/magic_link_service.go:275-295 | A token is consumed exactly when it has 1 to 256 characters, its row is live and unconsumed, and the tenant, if named, is the row's |
| MagicLinkService.Service.FindAccount | internal/service/magic_link_service.go:376-385 | The oldest undeleted account with the address, if active; a new one is called for exactly when the lookup works, nobody matches and sign-up is open |
| MagicLinkService.Service.CreatePasswordlessAccount | internal/service/account_service.go:139-164 | Whichever statement fails, either the new user is there or the users table is exactly as before, the row being rolled back |
| MagicLinkService.Service.Verify | internal/service/magic_link_service.go:275-334 | An account comes out only if, and unless several accounts tie for oldest exactly when, the token can be redeemed, its tenant resolves, the lookup works, and either the oldest match is active, allowed to use links, taken over without a failure if unverified, and has a destination, or nobody matches, sign-up is open and no statement of it fails; the users and sessions afterwards are stated exactly |
| MagicLinkService.SettlingIsDecided | internal/service/magic_link_service.go:376-397 | With at most one oldest match, the two conditions on which Verify answers with an account and with none are opposites |
| MagicLinkService.Service.TakeOver | internal/service/magic_link_service.go:414-438 | Sessions are revoked first; the address becomes verified only if everything in between succeeded |
| MagicLinkService.Service.Hand | internal/handler/magic_link_handlers.go:248-263 | A code is stored for the session, organization, challenge and destination origin, or the session is revoked unless that write fails too |
| MagicLinkService.Service.FinishSignIn | internal/handler/magic_link_handlers.go:157-263 | After verify a code comes out exactly when the session can be stored, its MFA flag set or the login hook passed, the challenge is well formed and some configured origin can receive the code; otherwise no session is left usable unless a revoking write or the MFA flag failed |
| MagicLinkService.Service.SignIn | internal/handler/magic_link_handlers.go:157-263 | A code comes out exactly under the conditions of Verify and of the handler's steps (ties for the oldest account apart); it lives for a minute, goes to an origin the redirect may go to, and is bound to an unrevoked session of that account which is MFA-pending exactly when the lookup answered that the user has MFA; a lookup that fails counts as no MFA |
| MagicLinkService.Service.Exchange | internal/service/magic_link_code_service.go:117-150 | Succeeds exactly when code and verifier are well formed, the code live, the origin its own and the verifier's challenge the stored one, the session live, the new secret unshared and the account active; a well-formed attempt on a live code consumes it whatever the outcome, any other leaves all rows alone; a session whose account turns out unusable is revoked |
| MagicLinkService.Service.IssueToken | internal/service/auth_service.go:353-366 | Replaces the bearer of a live session by the new secret; a dead session is untouched |
| MagicLinkService.Service.PurgeExpired | internal/service/magic_link_service.go:446-460 | Expired tokens, then expired codes are deleted and nothing else moves |
| MagicLinkService.CallsAgree | internal/service/magic_link_service.go:275-334 | Whatever calls a service has answered, each exchange it granted agrees with one request it accepted, in organization, address, challenge, origin and time, with no exception |
| MagicLinkService.OldestExists | internal/repository/auth/user_auth_repo.go:63-78 | Unless nobody matches the address up to case, the ordered lookup has an answer |
| MagicLink.WritersUseSessionStatements | internal/repository/auth/session_repo.go:24-110 | What other writers do to sessions during the protocol are the statements of the session table |
| MagicLink.WritersUseAccountStatements | internal/repository/auth/user_auth_repo.go:23-107 | And to accounts: new rows, status, verified address, placeholder, deletion |
| Pkce.ValidCodeChallenge | internal/service/magic_link_service.go:129-142 | Accepts exactly the strings of 43 characters of the spelled-out URL-safe alphabet |
| Pkce.ValidCodeVerifier | internal/service/magic_link_code_service.go:63-75 | Accepts exactly 43 to 128 characters of the spelled-out unreserved set (section 4.1 of RFC 7636) |
| Pkce.ChallengeEncodesDigest | internal/service/magic_link_code_service.go:57-61 | Letter k of a challenge is the spelled-out alphabet's at digit k of the digest read as a number in base 64, shifted by two bits; every challenge passes the challenge check, and two verifiers share one exactly when their digests agree |
| Pkce.WellFormedChallengeEncodesDigestIff | internal/service/magic_link_service.go:129-142 | A well-formed challenge is the encoding of some 32-byte digest exactly when its last letter is one of AEIMQUYcgkosw048 |
| Pkce.OpaqueTokenPassesGuards | internal/security/token.go:11-18 | A generated token is the 43 URL-safe letters of its random bytes and one padding sign, survives trimming, passes the length guards of verify and exchange, and determines its random bytes |
| TakeOver.AccountDb.TakeOver | internal/service/magic_link_service.go:414-438 | With a fault at any store call: the account only loses, sessions first and then the password; the address is newly verified only when no session, password, factor or recovery code is left, a failed attempt without lost acknowledgements leaves it unverified, and without faults it succeeds |
| TakeOver.AccountDb.DeleteListedFactors | internal/service/magic_link_service.go:424-432 | The loop deletes every listed factor of the user or reports the failing call, and touches no one else's |
| TakeOver.RetriesConverge | internal/service/magic_link_service.go:314-327 | Over any sequence of attempts what remains only shrinks, the address is verified only with nothing planted left, one full run suffices, and failed runs alone never verify it |
| SessionRuns.OneLiveBearer | internal/repository/auth/session_repo.go:99-133 | In every reachable state a hash that authenticates is the last one written for its session, and no other session holds it |
| SessionRuns.SupersededTokenIsDead | internal/service/auth_service.go:330-366 | A hash that has been replaced on its session never authenticates again, on any session |
| SessionRuns.HashesStayDistinct | internal/repository/auth/session_repo.go:24-30 | No two sessions ever share a token hash |
| SessionRuns.RevokedSessionsStayRefused | internal/service/auth_service.go:146-174 | Every session a user had when all were revoked stays refused through later rotations, issues and unlocks |
| SessionRuns.RevokedExactlyWhen | internal/repository/auth/session_repo.go:55-77 | In every run a session is revoked exactly when some event did it: by name, with the others of its user, or by a check that found it live and refused it and could write that down |
| SessionRuns.PendingIsLastFlag | internal/repository/auth/session_repo.go:107-110 | In every run a session is MFA-pending exactly as its flag was last set; rotation, issue, checks and revocation leave it |
| SessionRuns.LockedUserStaysRefused | internal/service/auth_service.go:302-328 | From the locking on, until somebody changes the status again or removes the user, no check of any of the user's sessions is accepted, old, rotated or new, and a check revokes the session it refuses |
| SessionRuns.AcceptedWithinLimits | internal/service/auth_service.go:302-328 | An accepted check is before the expiry, within the idle limit of the last recorded activity and, without remember-me, within the maximum age |
| SessionRuns.ExpiryIsFixed | internal/service/auth_service.go:330-336 | Without rotations a session's expiry never moves |
| SessionRuns.AgeRefusalIsFinal | internal/service/auth_service.go:302-328 | Without rotations a session past its maximum age is never accepted again |
| SessionRuns.IdleRefusalLasts | internal/service/auth_service.go:568-576 | Without rotations a session found idle stays refused, even if the revoking write was lost, unless a code exchange issues it a new token |
| SessionRuns.RefusalIsFinal | internal/service/auth_service.go:302-328 | A refusal whose revocation took effect is final in every continuation |
| SessionLimits.AgeLimitGivesIff | internal/service/auth_service.go:330-347 | With rotation as the session gate does it, some session created for less than 20 days is accepted past the maximum age if and only if the rotation interval is positive, below the session's lifetime and within the maximum age, the rotated lifetime is at least 2 ns, and maximum age plus rotated lifetime reach the 20 days that count as remembered; otherwise none ever is |
| SessionLimits.IdleLimitGivesIff | internal/service/auth_service.go:568-576 | The same for the idle limit of an ordinary user's session, with or without a maximum age: it gives way if and only if rotation can happen in time, the rotated lifetime outlasts the idle limit, and the session can come to count as remembered |
| SessionRuns.IssueRevivesAnIdleSession | internal/service/auth_service.go:353-366 | The exception in `IdleRefusalLasts` is real for every idle limit: in a reached state a session found idle is refused, its revocation is lost, it is issued a token, and the next check accepts it |
| Sessions.RowStep | internal/repository/auth/session_repo.go:48-133 | No statement changes a row's user or creation time or un-revokes it; hashes change only by create, rotate and issue, and rows come only from create |
| Sessions.AcceptsSpelledOut | internal/service/auth_service.go:302-328 | The check accepts exactly the hash of an unrevoked session before its expiry, of a user not found locked, within the idle limit that applies and, if its life is below 20 days, within the maximum age |
| AuthService.Service.GetSessionByToken | internal/service/auth_service.go:302-328 | Accepts exactly when some row meets those conditions, tells a locked owner apart, and leaves behind exactly the touch or the revocation of that row |
| AuthService.Service.CreateSessionWithTtl | internal/service/auth_service.go:258-296 | Succeeds exactly when the store answers, user and id allow it and the hash is free; the new row expires after the requested or configured lifetime or 7 days, which the maximum age never shortens |
| AuthService.Service.RotateSession | internal/service/auth_service.go:330-347 | Does nothing before the rotation interval; afterwards it succeeds exactly when the store answers and the new hash is unshared, and replaces hash and expiry of the unrevoked row |
| AuthService.Service.IssueSessionToken | internal/service/auth_service.go:353-366 | Succeeds exactly for a live session, an answering store and an unshared secret: only hash and activity change; a dead or unknown session is an error and untouched |
| AuthService.Service.LockUser | internal/service/auth_service.go:146-159 | Succeeds exactly for a known user when both writes work; then the user is locked and every session of the user, and no other, revoked |
| AuthService.Service.UnlockUser | internal/service/auth_service.go:162-174 | Succeeds exactly for a locked, undeleted user when the store answers, who becomes active again; no session changes |
| MfaGate.GateHolds | internal/handler/helpers.go:110-131 | In every interleaving, a session admitted by the session gate was handed out before, and for every hand-out of that session to a user with MFA a challenge on that very session succeeded between the two |
| GateOpens.AdmittedIff | internal/handler/helpers.go:110-131 | A request is admitted exactly when its token is presentable, the session check accepts it and no MFA is pending |
| GateOpens.ChallengedIff | internal/handler/helpers.go:94-131 | A challenge is taken up exactly when the same holds but MFA is pending |
| GateOpens.ChallengeOpensGate | internal/service/mfa_service.go:161-191 | From every state: a pending session's holder who proves a factor, or gives an unused recovery code, is challenged successfully and admitted on the next request |
| GateOpens.SignInHandsOut | internal/handler/magic_link_handlers.go:189-216 | From every state: a sign-in with a fresh secret stores its session, flagged if the user has MFA, and hands it out |
| GateOpens.BackgroundStep | internal/service/auth_service.go:146-174 | The revocations, status changes and new accounts in between are the session table's statements |
| MfaGate.StepKeepsInv | internal/handler/magic_link_handlers.go:189-216 | Every step of sign-in, rotation, issue, challenge and background writes keeps flagged sessions pending and undisclosed tokens unknown |
| RecoveryCodes.CodeClearsOneChallenge | internal/repository/auth/factor_repo.go:81-89 | In every run no recovery code clears two challenges |
| RecoveryCodes.UnusedCodeStays | internal/repository/auth/factor_repo.go:81-89 | In every run an unused recovery code stays unused, whatever else is tried, until it is presented for its user or the user's codes are replaced |
| RecoveryCodes.ReplacedCodes | internal/service/mfa_service.go:105-123 | Replacing a user's codes leaves exactly the new ones, unused, and other users' codes as they were |
| MfaService.Service.UserHasMfa | internal/service/mfa_service.go:193-204 | True exactly when the user has a verified factor |
| MfaService.Service.VerifyLoginCode | internal/service/mfa_service.go:161-191 | Accepts exactly a TOTP of the named factor, an empty-secret TOTP when none is named and the user has a verified one, or an unused recovery code; a refused attempt changes nothing, an accepted recovery code changes only the user's unused rows with its hash, and only the named factor that matched becomes verified |
| MfaService.SecretsPlayNoPart | internal/repository/auth/factor_repo.go:29-46 | Without a factor id the enrolled secrets make no difference to the answer |
| MfaService.RightCodeNeedsItsFactorId | internal/service/mfa_service.go:161-191 | A code right for the user's only factor is accepted with the factor's id; without it exactly when it also fits the empty secret |
| MfaService.Service.UseRecoveryCode | internal/repository/auth/factor_repo.go:81-89 | Succeeds exactly when the user has an unused code with the hash; such rows become used and no other row changes |
| RedeemSaga.AtMostOneWinner | internal/service/invite_service.go:98-145 | With any number of interleaved redemptions and revocations and failures at any forward step, at most one redemption of an invitation succeeds; its user is the one recorded, has the invited address, a credential, a profile and a session of its own, and the invitation is not revoked |
| RedeemSaga.FailureLeavesNothing | internal/service/account_service.go:64-135 | A failed redemption leaves no user, credential, session or profile of its own |
| RedeemSaga.RedeemedMeansWon | internal/repository/idp/invitation_repo.go:69-86 | An invitation is redeemed exactly when some redemption succeeded, and never both redeemed and revoked |
| RedeemService.InviteService.Redeem | internal/service/invite_service.go:98-145 | Succeeds exactly when the lookup works, the invitation holding the token's hash is open, its address free, the session id new and no deciding statement fails; then all rows of the account are there and the invitation is marked, otherwise the tables are as before; the outcome is the saga's call running alone |
| RedeemService.InviteService.CreateAccount | internal/service/account_service.go:64-135 | User, credential, profile, session and hook: all of them exactly when the address is free, the session id new and none fails, else the tables as before |
| RedeemService.InviteService.Revoke | internal/repository/idp/invitation_repo.go:69-72 | Exactly a pending invitation becomes revoked |
| RedeemSaga.OthersInterfere | internal/repository/idp/invitation_repo.go:69-86 | What happens beside redemptions takes effect: invitations are issued and revoked, addresses taken, redemptions begun on open invitations only |
| RedeemService.InviteService.Validate | internal/service/invite_service.go:73-88 | Revoked is reported before used, used before expired; a valid answer is a pending, unexpired invitation with the token's hash |
| RedeemService.InviteService.CreateLogin | internal/service/account_service.go:64-86 | User and credential are both there, exactly when the address is free and neither insert fails, or neither is; an address already taken is told apart from other failures |
| OrgOwners.OwnersAreTheCreator | internal/service/org_service.go:297-376 | With creation, invitation, acceptance, change and removal interleaved statement by statement, a created organization is owned by exactly its creator, until the creator's row is written by an acceptance, by the host, or by a call that had read it before the creation completed; then by nobody. Only the host naming an owner is excluded |
| OrgOwners.OwnerNeverReturns | internal/service/org_service.go:297-376 | Once a created organization has no owner it has none in any later state, unless the host names one |
| OrgOwners.UnfinishedHasNoOwner | internal/service/org_service.go:98-155 | An organization whose creation has not completed has no owner, in any interleaving, unless the host names one |
| OrgOwnerCases.LateWriteKeepsAnOwnerIff | internal/service/org_service.go:317-356 | In every reached state, the host's additions included: the write that ends a change or removal, however late, leaves an owner exactly when somebody other than the target is an active owner at that moment |
| OrgOwnerCases.OverwriteKeepsAnOwnerIff | internal/repository/idp/org_repo.go:347-364 | On any table: that write leaves an owner exactly when somebody else is one or the row written is itself an active owner's |
| OrgOwnerCases.TwoOwnersCanLoseBoth | internal/service/org_service.go:358-376 | From every reached state with two owners, two removals that read before either writes lead to a state with no owner |
| OrgOwnerCases.HostNamedOwnersCanLoseBoth | internal/service/org_service.go:254-293 | A run from the start: the host names a second owner and both are lost that way |
| OrgOwnerCases.CreatorCanBeOvertaken | internal/service/org_service.go:141-155 | A run from the start without any host addition: a removal decided while the creator was a plain member is written after the creation completed, and nobody is left |
| OrgOwnerCases.UninterruptedChange | internal/service/org_service.go:317-356 | The statements of a change or removal carried out with nothing in between are the whole operation of the service, on which the last-owner rule is proved |
| OrgOwnerCases.UninterruptedAcceptance | internal/service/org_service.go:484-542 | The statements of an acceptance carried out with nothing in between are the whole operation |
| OrgOwnerCases.UninterruptedCreation | internal/service/org_service.go:98-155 | So are those of a creation |
| OrgOwnerCases.UninterruptedInvitation | internal/service/org_service.go:418-482 | Those of an invitation store it exactly when the sender may and the role is one to invite for |
| OrgOwnerCases.HostAdds | internal/service/org_service.go:254-293 | The host's addition gives exactly the named member a role of the catalog and keeps department and level |
| OrgTables.ChangeKeepsAnOwner | internal/service/org_service.go:317-337 | From any state with an owner, changing any member's role by any actor in one step leaves an owner |
| OrgTables.RemovalKeepsAnOwner | internal/service/org_service.go:340-356 | From any state with an owner, removing any member by any actor in one step leaves an owner |
| OrgTables.DecisionTable | internal/service/org_service.go:295-314 | A change is allowed exactly when it does not name an owner, keeps the last owner, and is made by an owner, or by an admin on someone below admin |
| OrgTables.RefusalTable | internal/service/org_service.go:295-314 | Which refusal is given: nobody else may change members, nobody may name an owner, the last owner stays, admins stay below admin, in that order |
| OrgTables.LateWritesTouchActiveRows | internal/repository/idp/org_repo.go:347-364 | Role change and removal write active rows only |
| OrgTables.CatalogChanges | internal/repository/idp/org_repo.go:152-167 | Creating a role, deleting a level, accepting and revoking an invitation each touch exactly their own rows |
| OrgTables.RolePatternSpelledOut | internal/service/org_service.go:683-710 | Role names are 2 to 50 characters, a lower-case letter and then such letters, digits and underscores |
| OrgOwnerCases.AcceptKeepsAnOwnerIff | internal/service/org_service.go:484-542 | In every reached state, accepting an invitation leaves its organization an owner exactly when someone other than the acceptor is one |
| OrgOwnerCases.SoleOwnerCanLockOut | internal/repository/idp/org_repo.go:67-78 | In a reached state the only owner accepts an invitation and nobody owns the organization |
| OrgCatalog.MembershipsStayInCatalog | internal/service/org_service.go:254-293 | With all operations interleaved statement by statement, every membership names a normalized role of its own organization's catalog, and its department and level, when set, exist and belong to that organization |
| OrgCatalog.InvitationsStayInCatalog | internal/service/org_service.go:418-482 | Every invitation's role stays in its organization's catalog, so what was checked at issue holds at acceptance |
| OrgCatalog.UpsertedIsGood | internal/repository/idp/org_repo.go:67-78 | The upsert that keeps an old department or level when none is given leaves a good row |
| OrgCatalog.DropDeptKeepsInv | pkg/auth/migrations/idp/000003_org_structure.up.sql:36-38 | Deleting an organization's own department clears it from every membership that names it and changes nothing else |
| OrgCatalog.UninterruptedAcceptance | internal/service/org_service.go:484-542 | With nothing in between, the interleaved statements of an acceptance are the whole operation |
| OrgCatalog.UninterruptedAddition | internal/service/org_service.go:254-293 | So are those of adding a member |
| OrgCatalog.UninterruptedChange | internal/service/org_service.go:317-337 | Of a role change, once allowed |
| OrgCatalog.UninterruptedSending | internal/service/org_service.go:418-482 | Of an invitation, once allowed |
| OrgCatalog.UninterruptedCreation | internal/service/org_service.go:98-155 | And of a creation |
| OrgCatalog.HostAddsDept | internal/repository/idp/org_repo.go:267-275 | A new department belongs to its organization |
| OrgCatalog.HostAddsLevel | internal/repository/idp/org_repo.go:303-311 | A new level belongs to its organization |
| OrgCatalog.HostChanges | internal/repository/idp/org_repo.go:295-345 | Deletions, revocations and removals by the host are the statements on the tables |
| OrgService.Service.ChangeMemberRole | internal/service/org_service.go:317-337 | The member gets the normalized role exactly when both are active members, the authority table allows it and the role is in the catalog; which refusal is given is stated; an owned organization stays owned |
| OrgService.Service.RemoveMember | internal/service/org_service.go:340-356 | The row is marked removed exactly when allowed; an owned organization stays owned |
| OrgService.Service.AcceptInvite | internal/service/org_service.go:484-542 | Succeeds exactly for an open invitation of an existing organization, below the membership limit, when both writes work: the membership has the invited role, the invited department and level wherever they exist in that organization and the old ones otherwise, and the invitation is marked; refusals come in order without effect; if only the mark fails, the person is a member and the invitation still pending |
| OrgService.Service.RevokeInvite | internal/service/org_service.go:544-556 | For an owner or admin, exactly the pending invitation with the id becomes revoked |
| OrgService.Service.AddMember | internal/service/org_service.go:254-293 | The limit applies only when there is no row at all, not even a removed one, and an existing row keeps its department and level |
| OrgService.Service.Invite | internal/service/org_service.go:418-482 | An invitation for the asked role, else the configured default, else member, is stored exactly when that role is in the catalog and not owner, by an active owner or admin or by the platform |
| OrgService.Service.Create | internal/service/org_service.go:98-155 | Succeeds exactly with the feature on, below the membership limit, with a new slug and no failing statement; the organization then has the built-in and the well-formed configured roles and its creator as owner; a failure leaves exactly the statements done so far |
| WindowLimiter.MemoryWindowLimiter.Allow | internal/security/window_limiter.go:34-56 | A window still open counts on and otherwise a new one begins; the answer is whether the count is within the limit, and always yes without a limit; other keys lose at most expired entries |
| WindowLimiter.SweepIsInvisible | internal/security/window_limiter.go:40-55 | On every call sequence under a monotone clock, with any limits and windows per key, the swept limiter answers like one that never sweeps |
| WindowLimiter.TableStaysSmall | internal/security/window_limiter.go:40-55 | With one constant window every entry was opened within the last two windows, so the table is no larger than the set of keys hit in that time |
| LimiterBounds.EachWindowAllowsExactly | internal/security/window_limiter.go:34-56 | Each fixed window of a key contains exactly the smaller of its hits and the limit as allowed hits |
| LimiterBounds.AnySpanAllowsFewerThanTwice | internal/security/window_limiter.go:34-56 | Any closed span of one window length contains at most 2·limit − 1 allowed hits |
| LimiterBounds.SpanBoundIsReached | internal/security/window_limiter.go:34-56 | For every limit and window some sequence of calls has exactly 2·limit − 1 allowed hits within one window's length |
| ClientIp.ResolveClient | internal/security/client_ip.go:26-58 | The peer unless it is trusted and networks are configured; otherwise the walk from the right over all header lines |
| ClientIp.WalkBackIsDecidingHop | internal/security/client_ip.go:44-57 | The walk returns the rightmost hop that is untrusted with only trusted hops after it, the leftmost when all are trusted, and the peer when a hop on the way does not parse or there are none |
| ClientIp.PrependedHopsAreIgnored | internal/security/client_ip.go:44-57 | Hops put in front of where the walk stops change nothing |
| ClientIp.AllTrustedReachesTheLeft | internal/security/client_ip.go:44-57 | With only trusted hops behind it the leftmost hop is the client |
| ClientIp.JoinedLinesAreTheSame | internal/security/client_ip.go:38-43 | Joining two header lines with a comma, or splitting one there, changes no hop (section 5.3 of RFC 9110) |
| ClientIp.IpTrusted | internal/security/client_ip.go:9-16 | True exactly when some configured network contains the address |
| Argon2.EncodeDecodeRoundTrip | internal/security/argon2.go:112-148 | Decoding an encoded hash returns the same hash, salt and parameters, for all byte strings and all parameter values |
| Argon2.EncodedText | internal/security/argon2.go:112-122 | The stored text, part by part: algorithm, version 19, memory, iterations and parallelism in decimal, salt, hash |
| Argon2.DecimalDigit | internal/security/argon2.go:112-122 | Each printed digit is the number's at that place, without leading zeros |
| Argon2.DecodesIff | internal/security/argon2.go:124-148 | Exactly six parts between dollar signs with argon2id second and unpadded base64 in the last two decode; version and parameters cannot make decoding fail |
| Argon2.ScannedField | internal/security/argon2.go:130-133 | A parameter is its literal, blanks but a line feed, and digits whose number must fit |
| Argon2.UnfinishedParams | internal/security/argon2.go:130-133 | Where the parameters break off, those read keep their values and the others are zero |
| Argon2.VerifyAgainstHash | internal/security/argon2.go:62-110 | Every password verifies against its own hash for every pepper, salt and deterministic derivation, and another attempt exactly when the derivation agrees |
| Argon2.ImportedHashesGoToBcrypt | internal/security/argon2.go:83-96 | Exactly the three bcrypt prefixes are left to bcrypt, without the pepper; other texts that do not decode are an error |
| Base64.RoundTrip | internal/security/argon2.go:112-148 | Every byte string survives unpadded encoding and decoding in either alphabet (sections 3.2, 4 and 5 of RFC 4648) |
| Base64.EncodedLetter | internal/security/argon2.go:112-122 | Letter k of an encoding is the spelled-out alphabet's at digit k, in base 64, of the bytes read as one number and shifted to whole sextets |
| Base64.DecodesIff | internal/security/argon2.go:136-144 | A text decodes exactly when all its characters are in the spelled-out alphabet and no single one is left over |
| Base64.LineBreaksAreSkipped | internal/security/argon2.go:136-144 | A line break anywhere in a text to decode changes nothing |
| Prelude.TrimKeepsTheInner | internal/service/magic_link_service.go:175-177 | Trimming takes away exactly the blanks at both ends |
| Prelude.LowerFoldsCapitals | internal/service/magic_link_service.go:175-177 | Folding moves the 26 capitals and nothing else |

## Left out

- HTTP parsing, cookies, pages, CORS, CSRF and the interstitial's nonce: handlers are modelled only for the order of service calls.
- The cookie flow of magic links: the protocol is modelled with the code flow on, as the one-time code is its subject.
- The exchange secret and the per-IP exchange limit in the handler: they come before the service call.
- The in-flight bound of `Submit`, mail delivery and link building: a `process` job is one step that stores at most one row.
- `tenantMembership` and the expiry in an exchange's answer: reads that only add fields to it.
- Redirect and origin parsing: a URL arrives as its origin (if any) and whether it passes the character screens; allowlisting is then origin equality.
- SHA-256, argon2, bcrypt, TOTP and randomness: free constructor, parameters, fresh secrets.
- Address, IP and CIDR parsing, and text outside ASCII in folding, trimming and `Sscanf` blanks.
- The Redis limiter, Postgres transactions, connection loss after a commit (except lost acknowledgements in `TakeOver`).
- `GetSessionByToken` is one step: row, user and staff are read and the touch or revocation written together.
- Ties of `created_at` in the oldest-account lookup: any oldest row may be found.
- `SetPassword`, password reset, OAuth provider calls, email verification tokens, audit logs: single-branch or I/O.
- Rollback statements that themselves fail, global `user_roles` rows after a failed redemption, and profile validation.
- Redemptions that mark the invitation but lose the acknowledgement.
- At most one membership per organization invitation under interleaving, membership limits under interleaving, and `Ensure` promoting an owner: the code does not keep these; `Ensure` takes part only in the catalog results, and for owners it is the host naming one.
- Slug syntax, organization names, metadata and listings.
- MfaGate.GateHolds: rotation and issue are modelled as possible only after the hand-out, as the handlers order them; password login and OAuth share the sign-in steps of magic links.
- OrgOwners.OwnersAreTheCreator: runs in which the host names an owner through `AddMember` are excluded, because then the result is false (see the two-owner rows).
- OrgOwnerCases.AcceptKeepsAnOwnerIff: the acceptance is one step here; in the interleaved runs it is five.
- MagicLinkService.Service.TakeOver: the deletions of passwords, factors and recovery codes are one step with one success flag; the `TakeOver` module has them one by one.
- SessionLimits.AgeLimitGivesIff: the check and the rotation that follows it read the clock at the same instant.
