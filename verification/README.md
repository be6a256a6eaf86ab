# Tiny OIDC: model and proofs

A Dafny model of the parts of Tiny OIDC, an OpenID provider on Cloudflare Workers, that have to be right
under concurrency, retries and stale caches, with proofs about every run of them.

* **The user object** (`UserModel`, `UserObject`): sessions, authorization codes, refresh families and
  refresh tokens, rewritten by transactions that purge lazily as they go. `UserModel` gives every remote call
  as a function from tables to tables, `UserObject.UserDO` is the object with its statements, proved equal to
  those functions. `UserCases` sums up their branches. `UserRuns` runs any sequence of calls, with `exchangeCode`
  cut in two where it awaits the verifier digest and goes on with the user row it read before. `UserSound`, `UserHistory`, `UserLedger`,
  `UserClock`, `UserCap`, `UserReuse`, `UserPurge` and `SessionTouch` prove what holds over all runs. `UserBook` and
  `UserBookRuns` keep what the callers sent apart from the tables; `UserAnswers` states every answer in those terms,
  and `UserEffects` what the other calls change, row by row.
* **The interaction** (`InteractionModel`, `InteractionObject`, `InteractionRuns`, `InteractionAnswers`) and its clients
  (`CompleteProtocol`, `CompleteHandler`, `CompleteIssues`, `CompleteWitness`): one stored document with its alarm, the transition
  table, and `/complete` and the pushed-request path of `/authorize` as interleaved multi-step clients of the
  interaction and the user objects.
* **Signing keys** (`KeyModel`, `KeyObjects`, `KeySafety`, `KeyRotation`): roles derived from timestamps, the key table, the
  cron, the per-isolate cache, and what the settings rule on retirement buys.
* **Loops that must lose nothing** (`Partition`, `AuditBatches`, `KeysetWalk`, `UserListing`,
  `ArchiveListing`, `ArchiveDays`, `WorkerPool`, `ImportAssembly`).

Clocks, random secrets, digests, cookies, settings and the answers of other systems are parameters. Theorems
about runs say which of two assumptions they need: fresh secrets and ids (`AllFresh`, `Legal`, `FreshKids`), a
clock that never goes back (`AllOnTime`, `Clocked`, `InOrder`), or neither.

## Findings

* The settings rule on `keys.retire_after_seconds` (src/env.ts:169-175) is meant to outlive every token, but a
  client may override its access-token lifetime up to 3600 s (src/oidc/token-endpoint.ts:75,
  src/oidc/clients.ts:18) and the rule does not look there. `OverrideEscapesTheRule` gives settings the rule
  accepts and the exact `retire_after` from which such tokens are safe again.
* The family cap can revoke the family that the exchange has just created and answers with, exactly when twenty
  live families of the client from the same second have greater ids (`NewFamilyMayBeCapped`, and a run in which it
  happens, `AnExchangeRevokesItsOwnFamily`). Family ids are UUID v7, but every request mints its own from a fresh
  generator before it calls the user object (src/oidc/token-endpoint.ts:252, src/crypto/uuid.ts:10-22): ids of one
  millisecond come in random order, and requests of one second commit in any order, so a greater id may be stored
  first.
* `/complete` decides on the document it read before its claim, so an abort between the two does not stop the
  code (`AbortAfterTheReadIsIgnored`, with the exact condition, and a run in which it happens,
  `AbortedAndStillIssued`).
* An emergency retirement lists the keys and updates one of them in two statements
  (src/crypto/keystore.ts:185, src/crypto/keystore.ts:192). Two of them that race can retire the last two active
  keys (`TwoRetirementsLoseTheSigner`); any number of them leave a signer exactly when some active key is not among
  those that passed the guard (`RacingRetirements`).
* The purge is not invisible to `finalizeLogin`: a session idle for more than a day can be revived only while no
  purge has taken its row (`RevivalBetweenPurges`, `PurgeMayEndRevival` with the exact condition). An interaction
  lives at most 900 s, so `/complete` does not get there.
* A pool with limit 0 would drop its items silently (`PoolIsDone`); the two limits in use are 50 and 2.

## Model

| member | source | states |
|---|---|---|
| UserObject.UserDO.PurgeTables | src/do/UserDO.ts:655-679 | the five deletes with their cascades remove exactly the stale rows, the token delete reading a snapshot; at most once in 60 s |
| UserObject.UserDO.RevokeSessionRows | src/do/UserDO.ts:770-785 | ends one session and exactly its session-bound families, keeps earlier revocations, reports its clients |
| UserObject.UserDO.RevokeEach | src/do/UserDO.ts:613-643 | the loop over sids ends exactly that set, each with the clients it had before the loop |
| UserObject.UserDO.SetDisabled | src/do/UserDO.ts:613-643 | new tables on disabling and enabling; reported are exactly the sessions that were unrevoked, each with its clients |
| UserObject.UserDO.RevokeEverything | src/do/UserDO.ts:1064-1082 | every session and family revoked, earlier revocations kept, each ended session reported with its clients |
| UserObject.UserDO.RevokeSession | src/do/UserDO.ts:949-964 | new tables and report, nothing but the purge when the session is gone or revoked |
| UserObject.UserDO.RevokeSessions | src/do/UserDO.ts:980-1006 | exactly the live sessions but the kept one end, after the purge, each reported with its clients |
| UserObject.UserDO.IssueCodeRows | src/do/UserDO.ts:787-812 | code row, client row and throttled touch, or nothing when the digest is taken |
| UserObject.UserDO.TouchRow | src/do/UserDO.ts:739-748 | extends idle expiry only once in 60 s and never past the absolute expiry |
| UserObject.UserDO.AuthorizeWithSession | src/do/UserDO.ts:846-880 | outcome and tables in all branches, rollback when an insert is refused |
| UserObject.UserDO.FinalizeLogin | src/do/UserDO.ts:886-932 | outcome and tables for creating and rotating, rollback when an insert is refused |
| UserObject.UserDO.ExchangeCode | src/do/UserDO.ts:1128-1236 | the commit half with the user row read earlier: replay, refusals, family, cap |
| UserObject.UserDO.InsertFamily | src/do/UserDO.ts:1178-1221 | family, first token and cap, or no change at all when one of the two rows is taken |
| UserObject.UserDO.CapFamilies | src/do/UserDO.ts:1212-1220 | revokes exactly the live families of the client after the twenty newest |
| UserObject.UserDO.RotateRefreshToken | src/do/UserDO.ts:1238-1332 | outcome and tables for every branch of the rotation, reuse included |
| UserObject.UserDO.RevokeFamilyById | src/do/UserDO.ts:1335-1351 | revokes at most that family, only for its own client when one is named |
| UserObject.UserDO.RevokeFamiliesOfClient | src/do/UserDO.ts:1354-1368 | revokes exactly the client's families, or those of one session |
| UserSound.AuthorizeKeepsSound | src/do/UserDO.ts:846-880 | keeps the invariant: disabled holds nothing, coupling, idle within absolute, token chain |
| UserSound.FinalizeKeepsSound | src/do/UserDO.ts:886-932 | keeps the invariant, the rotation of an idle-expired session included |
| UserSound.ExchangeKeepsSound | src/do/UserDO.ts:1128-1236 | keeps the invariant with any earlier user row, so a disable in between is harmless |
| UserSound.RotateKeepsSound | src/do/UserDO.ts:1238-1332 | keeps the invariant in every branch |
| UserSound.EndingKeepsSound | src/do/UserDO.ts:770-785 | ending sessions with their families keeps the invariant |
| UserSound.DisablingKeepsSound | src/do/UserDO.ts:613-643 | disabling and enabling keep the invariant |
| UserSound.PurgeIfDueKeepsSound | src/do/UserDO.ts:655-679 | no purge removes the current token of a family or breaks the invariant |
| UserSound.SerialNeverAhead | src/do/UserDO.ts:1279-1279 | the branch for a serial ahead of its family is unreachable |
| UserRuns.RunKeepsSound | src/do/UserDO.ts:613-1332 | the invariant holds in every state of every run, whatever the clock and ids |
| UserRuns.DisabledUserHoldsNothing | src/do/UserDO.ts:1128-1170 | in every reachable state a disabled user has only revoked sessions and families, disables between read and commit included |
| UserHistory.StepEvolves | src/do/UserDO.ts:613-1332 | one step: rows only age, new rows come with the report of them, reports are true before and after |
| UserHistory.CommitEvolves | src/do/UserDO.ts:1128-1236 | an exchange needs an unspent code, spends it, and creates at most one family with the code's scope |
| UserHistory.RefreshEvolves | src/do/UserDO.ts:1238-1332 | a rotation needs the current token and advances the serial by one; a reuse leaves family and session dead |
| UserLedger.LedgerOfEveryRun | src/do/UserDO.ts:1128-1332 | over every run: each code exchanged once, each token rotated once, serials 2, 3, 4 and so on, reuse and replay final, granted scopes within the code's |
| UserLedger.FamiliesOfACode | src/do/UserDO.ts:1139-1221 | at most one family per code, revoked once the code was replayed |
| UserLedger.ReuseKillsForever | src/do/UserDO.ts:1264-1277 | after a reuse the family, its session and all families bound to it stay unusable to the end of the run |
| UserLedger.SessionsAndFamiliesCoupled | src/do/UserDO.ts:750-785 | sid exactly when session-bound, no live family on a revoked session, absolute expiry equal to the session's, idle within absolute |
| UserLedger.RunKeepsRows | src/do/UserDO.ts:1095-1102 | across any run absolute expiries never change, revocations are never cleared or overwritten, deleted rows never return |
| UserClock.PurgeTakesAPrefix | src/do/UserDO.ts:662-665 | whatever token is purged, every older token of its family is purged with it |
| UserClock.EveryRunIsTimely | src/do/UserDO.ts:655-679 | stored serials run contiguously up to the current one, at most 20 live families per client, the session row of an unexpired code always stored and usable when the code was created, no family from the future |
| UserClock.OverflowIsTheTail | src/do/UserDO.ts:1212-1220 | the overflow is exactly the live families after the 20 newest in (created_at, id) descending order |
| UserClock.CapRevokesTheTail | src/do/UserDO.ts:1212-1220 | the cap revokes those and changes no other row of any client |
| UserCap.NewFamilyMayBeCapped | src/do/UserDO.ts:1178-1221 | an exchange has revoked the family it answers with exactly when that family is live and twenty live families of the client from the same second have greater ids |
| UserCap.NewFamilyMayBeCappedInRuns | src/do/UserDO.ts:1178-1221 | so in every state a run with a forward clock reaches |
| UserCap.AnExchangeRevokesItsOwnFamily | src/do/UserDO.ts:1212-1220 | a run of twenty exchanges in one second after which the next one does |
| UserReuse.ReuseAlwaysDetected | src/do/UserDO.ts:1242-1277 | a consumed token presented by its client within the shortest purge window, family live, is always a reuse |
| UserReuse.RunKeepsConsumed | src/do/UserDO.ts:655-679 | until then no run removes the consumed token or its successor |
| UserPurge.PurgeKeepsListings | src/do/UserDO.ts:966-977 | a purge at any earlier or equal time leaves the live sessions and families listed as they were |
| UserPurge.PurgeKeepsGetSession | src/do/UserDO.ts:935-947 | nor does it change what a session lookup answers |
| UserPurge.PurgeKeepsAuthorize | src/do/UserDO.ts:846-880 | nor the outcome of an authorization, unless an insert throws, for which the digest of the new code must be stored |
| UserPurge.PurgeKeepsExchange | src/do/UserDO.ts:1136-1170 | nor whether an exchange succeeds and what it grants, with the same proviso for the new family and token |
| UserPurge.PurgeKeepsRotation | src/do/UserDO.ts:1242-1332 | nor whether a rotation succeeds and what it grants, with the same proviso for the new token |
| UserPurge.PurgeIsInvisibleInRuns | src/do/UserDO.ts:655-679 | the last two hold in every state a run with a forward clock reaches |
| UserPurge.RotationRevives | src/do/UserDO.ts:894-909 | a login rotates a session exactly when it may and the purge of the call, if due, leaves its row |
| UserPurge.PurgeMayEndRevival | src/do/UserDO.ts:894-909 | exactly when a purge before the call turns an accepted rotation into a refusal |
| UserPurge.RevivalBetweenPurges | src/do/UserDO.ts:903-909 | a state in which it does |
| SessionTouch.ThrottledTouchRefinesExact | src/do/UserDO.ts:739-748 | the stored idle expiry is never later than, and less than 60 s before, that of a store that extends on every use |
| UserBookRuns.BookOfEveryRun | src/do/UserDO.ts:750-1332 | in every state a run with fresh secrets and a forward clock reaches, every session, code and family row is what its callers sent, an unexpired code is stored, and the current token of a family is the one handed out last |
| UserAnswers.SessionAnswersInRuns | src/do/UserDO.ts:846-880 | every outcome of an authorization and of a lookup, exactly: only the digest of the last login of a usable session passes, then user, groups and admin scope, prompt and age, and consent decide on the input |
| UserAnswers.LookupAnswers | src/do/UserDO.ts:935-947 | a lookup reports the session row with its last login and the clients that got a code on it |
| UserAnswers.AuthorizeReports | src/do/UserDO.ts:709-725 | so does an authorization, the client of the new code included |
| UserAnswers.FinalizeAnswers | src/do/UserDO.ts:886-909 | every outcome of a login exactly, in terms of user, client, scopes and the session to rotate |
| UserAnswers.FinalizeLeaves | src/do/UserDO.ts:894-932 | the row a login leaves: given secret and claims, fresh idle lifetime within the absolute one; every other session as it was |
| UserAnswers.ExchangeAnswersInRuns | src/do/UserDO.ts:1128-1205 | a code is redeemed exactly when unspent and within its minute, by the client and redirect URI it was issued to, with the digest of its challenge or with neither challenge nor verifier, its session open and the user read before enabled, in the client's groups and allowed its scopes; it grants what it was issued for; a spent code is a replay |
| UserAnswers.RotationAnswersInRuns | src/do/UserDO.ts:1238-1332 | a rotation succeeds exactly with the token handed out last, family, client, user and session standing and the scope within the code's; it grants the scope asked for and otherwise the code's; `invalid_scope` exactly when only the scope is at fault |
| UserEffects.RevokeSessionEffect | src/do/UserDO.ts:949-964 | exactly that session and the families on it, told to exactly its clients; nothing when it had ended |
| UserEffects.RevokeOthersEffect | src/do/UserDO.ts:980-1006 | exactly the usable sessions but the kept one, which stays as it was |
| UserEffects.EverythingEffect | src/do/UserDO.ts:1064-1082 | every session and family, and no other row |
| UserEffects.SetDisabledEffect | src/do/UserDO.ts:613-643 | disabling takes everything, enabling touches nothing else |
| UserEffects.RevokeFamilyEffect | src/do/UserDO.ts:1335-1351 | exactly that family, when it is unrevoked and of the client named |
| UserEffects.RevokeClientEffect | src/do/UserDO.ts:1783-1797 | exactly the families of the client, or those of one of its sessions |
| UserEffects.ReplayEffect | src/do/UserDO.ts:1143-1151 | a replay takes exactly the families of its code |
| UserEffects.ReuseEffect | src/do/UserDO.ts:1264-1277 | a reuse takes exactly its family and, when bound, its session and the families on it |
| UserEffects.RotatedEffect | src/do/UserDO.ts:1304-1321 | a rotation moves its family, adds its token and at most touches its session |
| UserEffects.ThrownUndoes | src/do/UserDO.ts:849-1332 | a call whose insert a constraint refuses leaves every table as it was |
| UserEffects.RefusalsLeave | src/do/UserDO.ts:840-845 | an authorization touches nothing unless it issues a code; a refused login or exchange at most purges |
| UserEffects.RefusedRotationLeaves | src/do/UserDO.ts:1245-1262 | so does a refused rotation, but for a live family of a client deleted and made again, which goes with its tokens |
| UserEffects.PurgeEffect | src/do/UserDO.ts:655-679 | a purge deletes exactly expired codes and sessions and families over for a day, and changes no row |
| UserEffects.PurgeEffectOnTheRest | src/do/UserDO.ts:662-665 | and exactly the tokens whose successor is older than the window, with what hangs on deleted rows |
| UserEffects.PurgeIsThrottled | src/do/UserDO.ts:655-657 | at most once in 60 s |
| InteractionObject.InteractionDO.Open | src/do/InteractionDO.ts:157-189 | creates the document with its alarm, or refuses and changes nothing |
| InteractionObject.InteractionDO.Read | src/do/InteractionDO.ts:192-196 | answers exactly while the document is live |
| InteractionObject.InteractionDO.TakePushed | src/do/InteractionDO.ts:214-239 | new storage and answer of the claim of a pushed request |
| InteractionObject.InteractionDO.Transition | src/do/InteractionDO.ts:256-270 | new storage and answer of a transition, terminal retention included |
| InteractionObject.InteractionDO.TakeCompletion | src/do/InteractionDO.ts:281-291 | new storage and answer of the completion claim |
| InteractionObject.InteractionDO.TakeFederation | src/do/InteractionDO.ts:305-319 | new storage and answer, and the leg that was stored |
| InteractionObject.InteractionDO.Work | src/do/InteractionDO.ts:326-333 | new storage and answer of an update without transition |
| InteractionObject.InteractionDO.CountAttempt | src/do/InteractionDO.ts:347-367 | new storage, answer and attempts remaining; the attempt over the limit fails the interaction |
| InteractionObject.InteractionDO.Alarm | src/do/InteractionDO.ts:370-372 | deletes everything |
| InteractionRuns.EveryRunIsKept | src/do/InteractionDO.ts:157-373 | over every run: statuses are a path of the table, alarm at the stored expiry, at most 60 s after the end, pushed request and each federation leg taken at most once, at most the limit of attempts granted |
| InteractionRuns.OneAttemptTooMany | src/do/InteractionDO.ts:347-367 | an attempt on an open document succeeds exactly while fewer than the limit were granted; the next one leaves it failed |
| InteractionRuns.ReachableStatuses | src/interaction/state-machine.ts:33-72 | exactly which status can follow which: completed absorbing, failed only to completed, nothing back to pushed |
| InteractionRuns.CompletedIsFrozen | src/interaction/state-machine.ts:71-71 | a completed document is never changed again, only deleted |
| InteractionRuns.ExpiryOnlyShrinks | src/do/InteractionDO.ts:256-270 | only taking a pushed request moves the expiry later |
| InteractionRuns.DeletionIsInvisible | src/do/InteractionDO.ts:370-372 | with a forward clock every caller is answered as if the alarm had never deleted anything |
| InteractionAnswers.TheTable | src/interaction/state-machine.ts:33-72 | the moves permitted are exactly the 26 listed |
| InteractionAnswers.CreateAnswers | src/do/InteractionDO.ts:157-189 | every field of a new document, or a refusal when one is stored |
| InteractionAnswers.ApplyAnswers | src/do/InteractionDO.ts:256-270 | every outcome, and every field after: those of the patch where given, the status, the retention and its alarm |
| InteractionAnswers.WorkAnswers | src/do/InteractionDO.ts:326-333 | every outcome and field of an update without transition |
| InteractionAnswers.ClaimAnswers | src/do/InteractionDO.ts:281-291 | the completion is taken exactly when live, ready or failed, and not taken |
| InteractionAnswers.LegAnswers | src/do/InteractionDO.ts:305-319 | a federation leg is taken exactly with its state, within its time, while a login is awaited |
| InteractionAnswers.AttemptAnswers | src/do/InteractionDO.ts:347-367 | every outcome of an attempt, and the document it leaves |
| InteractionAnswers.WhoTakesAPush | src/do/InteractionDO.ts:214-239 | over every run exactly the client that pushed a request can take it, while it is live, has not moved on and was not taken, and gets it as it was pushed |
| CompleteProtocol.StepKeeps | src/interaction/complete.ts:105-292 | the protocol invariant over every step of every client, other caller, alarm and user change |
| CompleteProtocol.AtMostOneCodePerInteraction | src/interaction/complete.ts:116-292 | in every interleaving at most one code is issued for an interaction, and at most one code row exists under digests minted for it |
| CompleteProtocol.ClaimsEnd | src/do/InteractionDO.ts:281-291 | all claimants but at most one gave the interaction back, and those issued no code |
| CompleteProtocol.EvaluateKeeps | src/oidc/authorize-endpoint.ts:135-231 | the session hit on a pushed request counts as that one code |
| CompleteProtocol.AbortAfterTheReadIsIgnored | src/interaction/complete.ts:105-118 | an abort between read and claim changes neither code nor user tables, exactly while the claim falls within the retention |
| CompleteIssues.CodeOfEveryRun | src/interaction/complete.ts:182-292 | over every run a step that issues a code issues it to the user of the document the request read, with that request's client, redirect URI, nonce and challenge, the consented scopes if any and otherwise the request's, on the document's session opened by the cookie, or after a login on that session or a new one under its secret and claims |
| CompleteIssues.PushedCodeOfEveryRun | src/oidc/authorize-endpoint.ts:135-218 | the same for the session hit of a pushed request, taken by the client that pushed it |
| CompleteIssues.ArriveAnswers | src/interaction/complete.ts:105-115 | a request goes on exactly with a live document that is ready or failed |
| CompleteIssues.ClaimAnswers | src/interaction/complete.ts:116-118 | and holds it exactly when its claim succeeds |
| CompleteIssues.RequestGoesOn | src/interaction/complete.ts:119-292 | what each answer of the user object leads to: a code, a restart, a new session, an error redirect |
| CompleteIssues.OnlyTheNamedUser | src/interaction/complete.ts:187-187 | a call acts on the user object it names and on no other; one nobody initialised refuses |
| CompleteIssues.EvaluateAnswers | src/oidc/authorize-endpoint.ts:183-231 | the call the taker makes and what each answer leads to, prompt=none included |
| CompleteIssues.RestartGivesBack | src/interaction/complete.ts:224-235 | an accepted restart waits for a login without session and consent and can be claimed again |
| CompleteIssues.SettlingCompletes | src/interaction/complete.ts:142-152 | a completion ends a live ready or failed document, kept for 60 s at most |
| CompleteWitness.AbortedAndStillIssued | src/interaction/complete.ts:105-118 | a run in which an interaction is aborted between read and claim and its code issued on the failed document |
| CompleteHandler.Complete | src/interaction/complete.ts:102-299 | the handler run alone does what its steps of the protocol do in order |
| CompleteHandler.Issue | src/interaction/complete.ts:202-292 | consent on the old session, or rotate and else create, with the calls and outcomes of the protocol |
| KeyModel.SignerExists | src/crypto/keystore.ts:89-110 | there is a signer exactly when some unretired key has activated |
| KeyModel.SignerUnique | src/crypto/keystore.ts:89-110 | and only one, whatever the order of the rows |
| KeyObjects.DeriveRoles | src/crypto/keystore.ts:89-110 | the chosen signer is that one for every listing of the table; the other lists hold the rows of their role |
| KeyObjects.RolesOfAnyListing | src/crypto/keystore.ts:70-79 | a row is in the list of a role exactly when it was listed and has that role |
| KeyObjects.KeyTable.InsertFirstSigningKey | src/db/keys.ts:65-73 | inserts exactly when no unretired key exists |
| KeyObjects.KeyTable.InsertSigningKey | src/db/keys.ts:51-58 | adds the key unretired, and reports a kid that is already there |
| KeyObjects.KeyTable.RetireSigningKey | src/db/keys.ts:76-84 | sets the retirement once, on that key only, and reports whether it did |
| KeyObjects.KeyTable.DeleteRetiredSigningKeys | src/db/keys.ts:88-96 | deletes exactly the keys retired before the cutoff and reports them |
| KeyObjects.KeyTable.RetireSigningKeyNow | src/crypto/keystore.ts:184-194 | retires unless unknown or the last active key |
| KeyObjects.KeyTable.Maintain | src/crypto/keystore.ts:215-247 | the cron creates, retires and deletes exactly as its rule says, for every listing order, and reports exactly that |
| KeyObjects.KeyStore.Get | src/crypto/keystore.ts:294-316 | answers from a load under a minute old, else from the table it reads, else from a load under an hour old; no other answer, and signer and published set are those of the table loaded |
| KeyRotation.CronCreates | src/crypto/keystore.ts:221-235 | the cron makes a key exactly when the signer has been active for `rotation_days` and no key waits, to activate after the prepublish time |
| KeyRotation.CronRetires | src/crypto/keystore.ts:236-243 | it retires exactly the keys superseded by a signer old enough, deletes exactly those retired over 90 days ago, and changes no other |
| KeyRotation.ActivationsApart | src/crypto/keystore.ts:215-247 | where only the cron makes keys after the first, any two keys ever made activate at least the rotation and the prepublish time apart |
| KeyRotation.RotateAdds | src/crypto/keystore.ts:165-179 | a rotation adds its key, active at once or after the prepublish time |
| KeyRotation.FirstAdds | src/db/keys.ts:65-73 | the first key is made exactly when no unretired one is there |
| KeyRotation.RetireNowAnswers | src/crypto/keystore.ts:184-194 | every outcome of an emergency retirement, and the table it leaves |
| KeyRotation.RolesByTime | src/crypto/keystore.ts:70-79 | the four roles by the times of the key and of the signer |
| KeySafety.NeverLosesSigner | src/crypto/keystore.ts:184-247 | once an unretired key has activated, one has at every later time of every run |
| KeySafety.CronKeepsSigner | src/crypto/keystore.ts:215-247 | the cron never touches the signing key |
| KeySafety.RacingRetirements | src/crypto/keystore.ts:184-194 | retirements that all listed before the first update leave a signer exactly when some active key is not among those that passed the guard |
| KeySafety.TwoRetirementsLoseTheSigner | src/crypto/keystore.ts:184-194 | two of them on the last two active keys leave none |
| KeySafety.RetirementNeverOrphans | src/crypto/keystore.ts:215-247 | a token signed from a cache under an hour old has expired when the cron retires its key |
| KeySafety.SafeLifetimes | src/crypto/keystore.ts:294-316 | no run orphans a token exactly when its lifetime plus 3599 is at most `retire_after` |
| KeySafety.SettingsRule | src/env.ts:169-175 | settings pass exactly when each lifetime and an hour lie below the retirement age |
| KeySafety.AcceptedSettingsAreSafe | src/env.ts:169-175 | the settings rule makes every configured lifetime safe |
| KeySafety.OverrideEscapesTheRule | src/oidc/token-endpoint.ts:75-75 | a client's override of 3600 s escapes it exactly while `retire_after` is below 7199 |
| KeySafety.EveryIsolateVerifies | src/crypto/keystore.ts:294-360 | from signing to expiry the key is in the published set of every isolate, however stale its cache |
| Partition.Chunks | src/audit/sink.ts:152-154 | slices that join to the input, all full but the last, none empty, as many as the rounded-up quotient |
| AuditBatches.Batches | src/audit/sink.ts:84-104 | joins to the input, every batch fits a queue message, no contiguous partition has fewer |
| AuditBatches.GreedyStaysAhead | src/audit/sink.ts:84-104 | the k-th greedy cut is never before the k-th cut of any other partition |
| AuditBatches.GreedyIsLeast | src/audit/sink.ts:79-104 | hence no fewer batches are possible |
| AuditBatches.HotInOrder | src/audit/sink.ts:134-150 | the hot events are filtered in order, part by part |
| AuditBatches.HotStatements | src/audit/sink.ts:134-154 | the hot events in order, in as many statements as announced |
| KeysetWalk.OlderFirst | src/db/users.ts:183-185 | the order of a listing: by time, then by id |
| KeysetWalk.PageIsExact | src/admin/pagination.ts:88-98 | a page is the next rows past the cursor; without a cursor nothing is left, with one everything left lies past it |
| KeysetWalk.WalkAscends | src/admin/pagination.ts:88-98 | under any writes between pages the keys strictly increase and were in the table when read |
| KeysetWalk.EveryLastingRowOnce | src/admin/pagination.ts:88-98 | a row present throughout a walk that ends is returned exactly once |
| KeysetWalk.StaticWalk | src/admin/pagination.ts:88-98 | on a table at rest the walk ends and its pages are the table |
| UserListing.ListUsersStatement | src/db/users.ts:141-187 | the built clause selects exactly the rows that match the filters past the cursor |
| UserListing.StatementReadsPastTheCursor | src/db/users.ts:141-187 | so the statement reads the matching keys past the cursor in order |
| UserListing.EveryLastingUserOnce | src/db/users.ts:141-187 | a user who matches at every page is listed exactly once, whatever else is written |
| ArchiveListing.ListDay | src/admin/audit-log.ts:209-225 | the inner loop collects the rest of its day up to one past the page, for every truncation; every call asks for 1 to limit + 1 objects |
| ArchiveListing.ListPage | src/admin/audit-log.ts:203-243 | the page holds the first keys past the cursor day by day, with a cursor exactly when more follow |
| ArchiveListing.DayPastCursor | src/admin/audit-log.ts:207-208 | the skip test drops only days wholly before the cursor, the others without it are listed whole |
| ArchiveListing.DayThenKeyIsKeyOrder | src/admin/audit-log.ts:205-227 | day by day and key by key is key order over the range |
| ArchiveListing.ArchivePageIsKeysetPage | src/admin/audit-log.ts:190-243 | so an archive page is a page of the keyset walk |
| ArchiveListing.FollowCursors | src/admin/audit-log.ts:154-243 | asking for page after page until there is no cursor yields all objects of the range exactly once in day-then-key order, for every truncation, every list call asking for 1 to limit + 1 objects |
| ArchiveDays.ListDates | src/admin/audit-log.ts:172-243 | the same from a range of dates: exactly the objects of those days, in key order |
| ArchiveDays.PrefixesInCalendarOrder | src/audit/sink.ts:121-125 | day prefixes have one length and order as their dates |
| ArchiveDays.DatesGiveDayPrefixes | src/audit/sink.ts:121-125 | dates in order give the prefixes the listing needs |
| ArchiveDays.ObjectsHaveOneDay | src/audit/sink.ts:115-125 | an object carries the prefix of its own day and of no other |
| WorkerPool.EveryInterleaving | src/admin/import.ts:85-100 | in every interleaving at most `limit` in flight, items begun in order and once, each write of the work made at most once, each result in its own position |
| WorkerPool.PoolIsDone | src/admin/import.ts:85-100 | when the workers stop every item has its result, exactly when there was a worker at all |
| WorkerPool.EveryWriteOnce | src/admin/import.ts:85-100 | and then every write of the work on every item was made exactly once |
| WorkerPool.EveryRunEnds | src/admin/import.ts:92-98 | every run takes two steps an item, one a write and one a worker; until the last every worker that has not stopped can go on, then all have stopped |
| ImportAssembly.Collect | src/admin/import.ts:263-269 | settled lines in their positions, waiting lines listed once in order |
| ImportAssembly.CutIntoGroups | src/admin/import.ts:270-273 | groups of at most 25 that join to the waiting lines |
| ImportAssembly.EveryLineWrittenOnce | src/admin/import.ts:274-297 | over every run of the pool of two, however its groups interleave, every line of every group is written exactly once |
| ImportAssembly.WriteResults | src/admin/import.ts:274-297 | after any such run each waiting line has its own result and no other line has changed |
| ImportAssembly.WhatALineIsTold | src/admin/import.ts:202-296 | status and error of a line for every fate of its creation, a refused invitation included |
| ImportAssembly.Tally | src/admin/import.ts:298-304 | each line counts once under its status; success exactly when none failed |
| ImportAssembly.Assemble | src/admin/import.ts:263-297 | over every run of the pool every line ends with exactly the result it deserves, in its own position and under its own number |

## Left out

- Object lifecycle: `init`, `destroy`, schema migration, and the refusals of an object that was never initialised or was destroyed.
- Consent grants: what the user granted to a client is an input of `AuthorizeWithSession`; storing and listing grants is not modelled.
- Passkeys, linked identities, challenges, profile fields and session metadata: no decision modelled here reads them.
- Ids and digests are natural numbers; AES, HKDF, SHA-256, JWT and cookie sealing are not modelled, and the PKCE digest is a parameter.
- Scopes are sequences; storing them as one space-separated string and splitting it again is not modelled.
- Order of the session, client and family listings: the model gives their contents.
- UserPurge.PurgeKeepsExchange: speaks of success and grant and not of which refusal is given, because a purged code turns a replay into an ordinary refusal.
- UserObject.UserDO.RevokeFamiliesOfClient: the number it reports is the storage engine's count of rows written, index rows included, and is not modelled.
- Key store: generation, decryption and import of keys, `rekeySigningKeys`, the background refresh between 60 s and an hour, and cron steps of two isolates interleaved statement by statement. Retiring a key also deletes its private half, which no decision reads.
- KeyObjects.KeyStore.Get: one call at a time, on a table that is not empty; the first key of an empty table is `InsertFirstSigningKey`, and two concurrent loads in one isolate share a promise that is not modelled.
- KeyObjects.KeyTable.Maintain: a generated kid that is already stored makes the source throw; kids are thumbprints of new keys, and the model goes on without the insert.
- WebAuthn verification, upstream federation calls and account resolution: other callers of the interaction object take any step the table allows.
- InteractionRuns.EveryRunIsKept: assumes what the callers do, namely fresh federation states, attempts counted by `attempt` alone, and no second creation under one id.
- CompleteHandler.Complete: the end of another user's session on re-authentication and of the session on logout act on user tables only and are left to the interference of the protocol.
- CompleteHandler.Issue: for the same reason does not end another user's session before it creates the new one.
- Single use of a passkey challenge: the code reads and clears it in two steps and promises no more.
- Cursor sealing, its one-hour expiry and `parseLimit`: a walk here follows cursors that open.
- ArchiveListing.ListDay: a truncated response of the bucket is assumed to hold at least one object; without that the source's loop need not end.
- ArchiveListing.ListPage: the list calls of one page see one state of the bucket; different pages may see different ones.
- The calendar arithmetic that turns `from` and `to` into days: dates in order are an input.
- WorkerPool: work that rejects, which the import callbacks catch.
- `permittedTransitions`, the limits on lines and days, other counters, audit event contents, HTTP routing, rate limits and SQL text: nothing modelled here depends on them.
- User creation, group propagation, the queue consumer and scheduled maintenance outside the key store.
