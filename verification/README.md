# Firefox Accounts servers: a verified model

A Dafny model of the parts of the Firefox Accounts servers where state, several
routes and arithmetic meet, with the properties they are relied on for.

| files | part of the servers |
|---|---|
| `Scopes`, `OAuthStore`, `OAuthGrants`, `OAuthServer`, `OAuthAnswers` | the OAuth tables and the authorization and token endpoints, with their answers |
| `OAuthRuns`, `OAuthCodes`, `OAuthLifetimes` | whole runs of the OAuth server: grants, revocation, one-time codes, PKCE, expiry |
| `ActiveClients` | the summary of a user's active clients |
| `CacheCodec`, `SessionCache` | the packed session-token cache in Redis, and the session listing |
| `Reminders`, `ReminderProgress` | verification reminders and the script that sends them |
| `Bounces`, `MailRouting` | bounce limits, choice of recipients and mail providers |
| `Bytes`, `KeyWrapping`, `AccountKeys` | the user's keys across logins, password changes and resets |
| `Assurance`, `SecondFactor`, `SecondFactorRuns`, `RouteAnswers`, `AuthRoutes` | accounts, addresses, sessions, TOTP, recovery codes and the gates they open |
| `KeyTokens`, `KeyGates`, `MailGates` | key-fetch tokens and verification mails: when a user's keys can leave the server |
| `RandomCodes`, `UrlSafeBase64` | random codes and URL-safe base64 |

The same plan is followed throughout. What a handler answers and how it changes the
tables is a function on values (`OAuthGrants.TokenEndpoint`, `SecondFactor.Step`,
`SessionCache.StepCache`, `AccountKeys.Apply`). The handlers themselves are methods over
classes with the fields and loops of the source, each proved to compute that function.
The properties are lemmas about every sequence of those functions.

What the servers take from outside is a parameter: hashes, HKDF, HMAC, scrypt, the
implication between scopes, the outcome of checking an assertion or a TOTP code, the
clock, and the values drawn at random. The results ask of them only output lengths, that
scope implication is a preorder, and, where it says so, that random values are fresh and
that a code which was drawn is presented only after it was mailed to somebody.
A request is one atomic step, and so is an update of Redis.

Where the code and its comments differ the model follows the code:

- the listing of active clients says it leaves out expired tokens, but does not
  (`fxa-oauth-server/lib/db/memory.js:265-295`);
- resending a code says it does not do so for verified addresses, but does
  (`lib/routes/emails.js:219-222`);
- decoding a sign-in code appends three padding signs where one is due
  (`lib/routes/signin-codes.js:41-44`), which is harmless, as proved;
- a recovery code entered in a session already verified by e-mail is spent without
  raising the session's assurance level (`lib/routes/recovery-codes.js:140-144`);
- an account can enrol in TOTP before its address is verified, and is then still deleted
  like any unverified account, with no second factor asked for
  (`lib/routes/account.js:94-119`);
- the session presented with a password change, or with the deletion of an account, need
  not belong to the user concerned (`lib/routes/password.js:182-196`,
  `lib/routes/account.js:1204-1216`), nor does the one in which a user signs in again
  (`lib/routes/session.js:136-202`), whose verification id is then mailed to that user.
  This, and an unverified address, open the session of a login under TOTP without its
  second factor; nothing else does for as long as the user keeps TOTP;
- mail recipients are conserved only with at most one primary address that passes the
  bounce check; of several, all but the last are lost (`lib/senders/index.js:59-70`).

Run `dafny verify dfyconfig.toml` to check everything.

## Model

| member | source | states |
|---|---|---|
| OAuthGrants.GrantCheckMeaning | fxa-oauth-server/lib/grant.js:45-91 | the chain of checks approves a grant if and only if the assurance level asked for was reached, an untrusted client keeps to the allowed scopes, and every key-bearing scope is allowed to the client and comes with a verified token |
| OAuthServer.ValidateRequestedGrant | fxa-oauth-server/lib/grant.js:45-111 | the checks run in the order of the source and give its errors, or the grant |
| OAuthServer.CollectKeyBearing | fxa-oauth-server/lib/grant.js:67-74 | the loop over the requested scopes collects exactly those registered as carrying keys |
| OAuthServer.GenerateTokens | fxa-oauth-server/lib/grant.js:119-150 | an access token is always stored, a refresh token if and only if the grant is offline, and the answer repeats what was stored |
| OAuthGrants.ReportedLifetime | fxa-oauth-server/lib/db/memory.js:238-256 | the reported lifetime is the stored one to the millisecond (to the second when none was asked for) and never above the maximum |
| OAuthGrants.MintedForThePresenter | fxa-oauth-server/lib/routes/token.js:176-196 | a successful token request mints for the client that made it, for the user of the code or of the verified assertion, and uses the code up |
| OAuthGrants.RefreshNarrows | fxa-oauth-server/lib/routes/token.js:329-370 | a refresh grants exactly the requested scope, contained in that of the refresh token; it mints no refresh token and changes nothing of the stored one but its time of last use |
| OAuthGrants.RefusedAuthorizationChangesNothing | fxa-oauth-server/lib/routes/authorization.js:130-212 | a refused authorization leaves every table as it was |
| OAuthGrants.RefusedTokenRequestChangesNothing | fxa-oauth-server/lib/routes/token.js:268-370 | a refused exchange, refresh or assertion leaves every table as it was |
| OAuthServer.Authorization | fxa-oauth-server/lib/routes/authorization.js:130-229 | succeeds if and only if the schema and the assertion hold, the client is known, the redirect is allowed, the grant is approved, and PKCE fits (for a code) or the client may grant (for a token); a code goes to the registered address or an allowed local one |
| OAuthServer.GenerateAuthorizationCode | fxa-oauth-server/lib/routes/authorization.js:155-184 | a code is stored only if PKCE parameters are given exactly when the client is public |
| OAuthServer.Token | fxa-oauth-server/lib/routes/token.js:176-196 | succeeds if and only if the client is genuine and what it presents is good; answers with, and stores, exactly what was presented |
| OAuthAnswers.AuthorizationAnswer | fxa-oauth-server/lib/routes/authorization.js:214-229 | when an authorization is accepted, as an if-and-only-if, and where its code is sent |
| OAuthAnswers.AuthorizationStores | fxa-oauth-server/lib/routes/authorization.js:155-184 | an accepted authorization stores one code, with the grant of the assertion and the challenge of the request, and nothing else |
| OAuthAnswers.ImplicitAnswer | fxa-oauth-server/lib/routes/authorization.js:186-212 | an accepted implicit grant answers and stores like the token endpoint |
| OAuthAnswers.TokenRequestAnswer | fxa-oauth-server/lib/routes/token.js:199-391 | when a token request is accepted, as an if-and-only-if, for the three grant types |
| OAuthAnswers.TokenRequestStores | fxa-oauth-server/lib/grant.js:119-150 | every part of the answer and of the stored rows, with a refresh token if and only if what was presented is offline; the code is gone, and the refresh token notes its use at most once per interval |
| OAuthAnswers.ExchangeErrors | fxa-oauth-server/lib/routes/token.js:268-326 | which error a code exchange is refused with, told by what is wrong |
| OAuthAnswers.RefreshErrors | fxa-oauth-server/lib/routes/token.js:329-353 | a refresh token of another client is as good as none; too wide a scope is answered with what is too much |
| OAuthAnswers.MintedTokensStay | fxa-oauth-server/lib/db/memory.js:304-358 | on every run with fresh random values a minted token is in its table, with its owner and scope, until it is destroyed or its owner's are revoked |
| OAuthServer.Authenticate | fxa-oauth-server/lib/routes/token.js:199-233 | succeeds if and only if the client is known and either public without a secret, or not public with a secret that hashes to the current or the previous one |
| OAuthServer.ValidateAuthorizationCodeGrant | fxa-oauth-server/lib/routes/token.js:268-326 | the checks on a code in their order; success removes the code |
| OAuthServer.ValidateRefreshTokenGrant | fxa-oauth-server/lib/routes/token.js:329-370 | the checks on a refresh token; success narrows the copy, not the stored row, and refreshes the time of last use at most once per interval |
| OAuthServer.ValidateAssertionGrant | fxa-oauth-server/lib/routes/token.js:373-391 | succeeds if and only if the client is public and may grant, the assertion holds, its level is the one asked for and the scope is approved; the grant is then for the client, the user of the assertion and the scope asked for |
| OAuthServer.VerifyToken | fxa-oauth-server/lib/token.js:17-70 | refuses an unknown token, and an expired one from the enforcement epoch on, and nothing else; reports the stored user, client and scope, and the e-mail only to scopes that ask for it |
| OAuthServer.DestroyAccessToken | fxa-oauth-server/lib/routes/destroy.js:23-49 | removes exactly the named access token, or reports that there is none |
| OAuthServer.DestroyRefreshToken | fxa-oauth-server/lib/routes/destroy.js:23-49 | removes exactly the named refresh token, or reports that there is none |
| OAuthStore.DeleteOwned | fxa-oauth-server/lib/db/memory.js:309-318 | the key loop deletes exactly the rows of one client and user |
| OAuthStore.MemoryStore.DeleteClientAuthorization | fxa-oauth-server/lib/db/memory.js:304-325 | refused without a client or a user; otherwise codes, access tokens and refresh tokens of the client and user are gone, all others kept |
| OAuthRuns.TokensRestOnApprovedGrants | fxa-oauth-server/lib/routes/token.js:246-391 | on every run, each stored code or token and each token ever minted is covered in owner, scope and offline access by one grant that passed all checks on an assertion of its user, that of the assurance level included, and was not revoked in between |
| OAuthRuns.StepKeepsSound | fxa-oauth-server/lib/routes/token.js:176-196 | every step of the server keeps that invariant |
| OAuthRuns.MintingIsBacked | fxa-oauth-server/lib/grant.js:119-150 | minting on a backed grant keeps every row and every past mint backed |
| OAuthRuns.ClaimIsBacked | fxa-oauth-server/lib/routes/token.js:246-265 | whatever the grant type, the grant a request claims is backed |
| OAuthRuns.RevocationIsExact | fxa-oauth-server/lib/db/memory.js:304-325 | after a revocation exactly the rows of the owner are gone |
| OAuthRuns.RevocationIsFinal | fxa-oauth-server/lib/db/memory.js:304-325 | a token minted for an owner after a revocation rests on a grant later than the revocation, offline if it is a refresh token |
| OAuthRuns.NothingLeftUntilNextGrant | fxa-oauth-server/lib/db/memory.js:304-325 | from a revocation to the next grant the tables hold nothing of the owner |
| OAuthCodes.CodesAreOneTime | fxa-oauth-server/lib/routes/token.js:268-326 | on every run with fresh random values each code is redeemed at most once, by its own client, within its lifetime, and by a public client only with the verifier whose hash is the challenge; stored codes have a challenge exactly when their client is public |
| OAuthCodes.ExchangeMeaning | fxa-oauth-server/lib/routes/token.js:268-326 | on tables a run produced, the chain of checks is an if-and-only-if: present, own client, alive, and the right verifier or none; the two checks that should never fire do not |
| OAuthCodes.StepKeepsTracked | fxa-oauth-server/lib/routes/token.js:281-325 | every step keeps the record of issued and redeemed codes consistent |
| OAuthCodes.IssuingIsTracked | fxa-oauth-server/lib/routes/authorization.js:155-184 | a new code is unredeemed and satisfies the PKCE rule |
| OAuthCodes.RedeemingIsTracked | fxa-oauth-server/lib/routes/token.js:323-325 | a redemption removes its code for good |
| OAuthCodes.PkceHashShape | fxa-oauth-server/lib/routes/token.js:398-400 | a PKCE hash has the 43 URL-safe characters the request schema asks for |
| OAuthLifetimes.AcceptedTokensAreYoung | fxa-oauth-server/lib/token.js:17-70 | an accepted token is no older than the maximum lifetime unless it expired before the epoch, and its owner and scope are reported |
| OAuthLifetimes.DeadStaysDead | fxa-oauth-server/lib/token.js:22-34 | acceptance lost by expiry, destruction or revocation never returns |
| OAuthLifetimes.StepKeepsBounded | fxa-oauth-server/lib/db/memory.js:238-256 | every step keeps stored expiry times within the maximum lifetime |
| Scopes.ContainsTransitive | fxa-oauth-server/lib/routes/token.js:345-353 | narrowing a narrowed scope set stays within the first one |
| ActiveClients.AggregateActiveClients | fxa-oauth-server/lib/db/helpers.js:27-84 | one entry per client with the latest access time, the union of scopes and the first name, ordered by time descending then name, scopes in alphabetical order |
| ActiveClients.GroupByClient | fxa-oauth-server/lib/db/helpers.js:32-54 | the grouping loop summarises each client over the tokens seen so far |
| ActiveClients.SortClients | fxa-oauth-server/lib/db/helpers.js:63-81 | sorting with the comparator gives an ordered permutation |
| ActiveClients.CompareIsConsistent | fxa-oauth-server/lib/db/helpers.js:63-81 | the two-key comparator is a total preorder and is zero only for equal keys |
| ActiveClients.SortScopes | fxa-oauth-server/lib/db/helpers.js:56-60 | the scope values in alphabetical order, each once |
| ActiveClients.GetActiveClientsByUid | fxa-oauth-server/lib/db/memory.js:270-295 | exactly the tokens of the user whose client cannot grant are summarised; it fails only without a user or on a token without a client |
| ActiveClients.ListsOnlyLiveClients | fxa-oauth-server/lib/db/memory.js:265-295 | expiry plays no part: only clients with an unexpired token are listed if and only if every client with a token has an unexpired one |
| ActiveClients.ExpiredTokenIsListed | fxa-oauth-server/lib/db/memory.js:279-292 | a client whose only token has expired is listed |
| CacheCodec.PackThenUnpack | lib/db.js:1442-1517 | unpacking a packed record gives the same eight properties and five location properties, up to null and undefined |
| CacheCodec.PackIsCanonical | lib/db.js:1442-1479 | records that mean the same are packed alike; packing an unpacked record again changes nothing |
| CacheCodec.PackIsFaithful | lib/db.js:1442-1517 | records packed alike mean the same |
| CacheCodec.PackIsShortest | lib/db.js:1465-1479 | no array that unpacks to the same record is shorter, nor is its location array |
| CacheCodec.TruncateShape | lib/db.js:1465-1479 | truncation keeps the shortest prefix after which only nulls follow |
| SessionCache.TruncatePackedArray | lib/db.js:1465-1479 | popping trailing nulls computes the truncation |
| SessionCache.PackToken | lib/db.js:1446-1458 | a record is written in property order, its location packed in turn |
| SessionCache.PackTokensForRedis | lib/db.js:1442-1462 | packs every record, and fails exactly when one is null |
| SessionCache.CacheRefinesMap | lib/db.js:578-679 | from any stored value, packed, older or mixed, any sequence of touches, deletions, prunings and reads means the same steps on the plain map of records |
| SessionCache.StepIsLocal | lib/db.js:1392-1410 | a step changes no other token and never leaves an empty map stored |
| SessionCache.NullFreeRunsNeverFail | lib/db.js:578-679 | without null entries no step is refused and each is the plain map update |
| SessionCache.FreshRecordView | lib/db.js:587-610 | a touched token reads back as its own properties and its place |
| SessionCache.Cache.TouchSessionToken | lib/db.js:578-614 | replaces the one record of one user, or fails and changes nothing |
| SessionCache.Cache.DeleteSessionTokenFromRedis | lib/db.js:1392-1410 | removes the one record of one user; an empty map deletes the key |
| SessionCache.Cache.Remove | lib/db.js:1397-1409 | the shared update of deletion and pruning |
| SessionCache.Cache.PruneSessionTokens | lib/db.js:651-679 | removes the records of exactly the rows created at least the pruning age ago, if the three switches are on; tells whether it went through |
| SessionCache.PrunableAreOld | lib/db.js:658-660 | the ids to be pruned are those of the rows created at least the pruning age ago |
| SessionCache.Cache.SafeUnpackTokens | lib/db.js:1377-1390 | reads a key, deleting a value that is not JSON |
| SessionCache.Cache.Sessions | lib/db.js:269-343 | the live rows in order, with their cached records; leaves in the cache all but the records of rows that have outlived both ages |
| SessionCache.SplitRows | lib/db.js:278-292 | the filter splits the rows into live and expired |
| SessionCache.ListedIffNotExpired | lib/tokens/session_token.js:25-30 | a row is live exactly when the token rebuilt from it is not expired, rounding up to seconds included |
| SessionCache.ListingKeepsListedRecords | lib/db.js:269-301 | a listing returns exactly the rows whose tokens authenticate and its pruning keeps their cached records |
| SessionCache.CeilSecondsBounds | lib/tokens/token.js:105-113 | the time to live is the number of seconds rounded up |
| Reminders.Conservation | scripts/verification-reminders.js:60-97 | each popped reminder is exactly one of sent, dropped or put back under its own timestamp, so the queue loses only the sent and dropped |
| Reminders.OneMailPerRun | scripts/verification-reminders.js:66-80 | no account is mailed for two keys of one run |
| Reminders.Run | scripts/verification-reminders.js:42-98 | every queue ends up as described key by key; who is mailed had waited long enough for some key, mails go to distinct accounts, and nothing leaves a queue, or is redated in it, before it has waited long enough |
| Reminders.MailedWereRipe | scripts/verification-reminders.js:66-80 | an account that is mailed had been queued for some key for that key's interval |
| Reminders.UnripeStays | scripts/verification-reminders.js:82-97 | a reminder that has not waited long enough stays where it is, under its timestamp |
| Reminders.RunKey | scripts/verification-reminders.js:54-97 | one round of the outer loop |
| Reminders.SendBatch | scripts/verification-reminders.js:62-92 | the inner loop mails, drops or sets aside each reminder |
| Reminders.PairUp | lib/verification-reminders.js:130-140 | the flat answer is turned back into the records it lists |
| Reminders.VerificationReminders.Process | lib/verification-reminders.js:124-145 | lists, each once and under its own timestamp, exactly the reminders that have waited for their key's interval, and leaves exactly the others queued |
| Reminders.VerificationReminders.Reinstate | lib/verification-reminders.js:155-168 | adds the reminders under their original timestamps |
| Reminders.VerificationReminders.Create | lib/verification-reminders.js:77-92 | adds the account to every queue when the rollout draw allows |
| Reminders.VerificationReminders.Delete | lib/verification-reminders.js:102-114 | removes the account from every queue |
| Reminders.AddAllLists | lib/verification-reminders.js:157-161 | adding the listed reminders is the union with the queue |
| ReminderProgress.AllClearedAfterAsManyRunsAsKeys | scripts/verification-reminders.js:54-97 | with no mail failures and no new records, as many runs as there are keys leave no reminder that was due at the start |
| ReminderProgress.ClearedAfter | scripts/verification-reminders.js:54-97 | a due reminder is cleared once the runs outnumber the earlier keys its account is queued for |
| ReminderProgress.DueReminderAdvances | scripts/verification-reminders.js:66-80 | in a run without failures a due reminder is gone or one key closer |
| ReminderProgress.FewerRunsDoNotSuffice | scripts/verification-reminders.js:66-80 | the bound is exact: an account due for every key needs them all |
| Bounces.ApplyRules | lib/bounces.js:39-71 | on a list sorted newest first the scan refuses if and only if some type has more than k bounces within the window of tier k, and reports the newest bounce of such a type |
| Bounces.RankIsCount | lib/bounces.js:56-70 | with the newest first, more than k recent bounces is the same as the bounce of rank k being recent |
| Bounces.QuietExtends | lib/bounces.js:56-70 | a bounce that passes keeps the tallies right and every earlier bounce within its tier |
| MailRouting.GetSafeMailerWithEmails | lib/senders/index.js:45-88 | writes to the last primary address that can be reached, with copies to all other verified ones that can, in order; without one, the first of the others takes its place; fails only if nobody can be reached, with the error of the first address held back |
| MailRouting.PlacesMeaning | lib/senders/index.js:52-70 | the addresses chosen are exactly the primary or verified ones that pass the bounce check, in list order |
| MailRouting.RefusalIsGood | lib/senders/index.js:72-84 | the exact condition of each failure, and the error reported |
| MailRouting.RecipientsAreTheDeliverable | lib/senders/index.js:45-88 | the recipients are exactly the deliverable addresses if and only if there are any, with at most one deliverable primary that is not empty |
| MailRouting.FirstOfTwoPrimariesIsLost | lib/senders/index.js:59-70 | of two primary addresses that pass the bounce check the first gets no mail |
| MailRouting.SelectEmailServices | lib/senders/email.js:425-538 | every service used appears once, with exactly its addresses in their original order, each address going to its first matching provider |
| MailRouting.UpsertServicesMap | lib/senders/email.js:527-537 | adds the address to its service, or starts the service |
| MailRouting.EveryRecipientOnce | lib/senders/email.js:318-331 | over all mails together each address is used exactly as often as it was asked for, as to or cc |
| MailRouting.FirstMatch | lib/senders/email.js:450-474 | the first configured provider that matches wins |
| MailRouting.NoMatch | lib/senders/email.js:450-474 | without a matching provider an address goes to the one forced for it, or else to this server |
| MailRouting.ThroughKeepsOrder | lib/senders/email.js:425-448 | the addresses of a service are those it was chosen for, in their original order |
| Bytes.XorBuffers | lib/crypto/butil.js:22-37 | the byte loop computes the exclusive or, and fails on different lengths |
| Bytes.BuffersAreEqual | lib/crypto/butil.js:9-20 | collecting differences decides equality |
| Bytes.XorInvolution | lib/crypto/butil.js:22-37 | masking twice gives the text back |
| KeyWrapping.UnwrapUndoesWrap | lib/crypto/password.js:49-62 | one operation both wraps and unwraps |
| KeyWrapping.UnbundleInvertsBundle | lib/tokens/bundle.js:38-88 | a text opens to a payload if and only if it is the bundle of that payload |
| KeyWrapping.BundlePayload | lib/tokens/bundle.js:38-51 | what it builds opens to the payload |
| KeyWrapping.UnbundlePayload | lib/tokens/bundle.js:55-72 | opens exactly the bundles, and refuses every other text |
| KeyWrapping.KeyBundleRoundTrip | lib/tokens/key_fetch_token.js:51-69 | the holder of the token gets both keys out of the stored bundle |
| AccountKeys.KeysSurvive | lib/routes/password.js:218-263 | after any sequence of password changes, resets and operators' interventions the bundle for the current password opens to the first key and the second key last submitted or generated, unless an operator has made the password unusable since; a login is refused if and only if the salt marks unusable passwords, and then with every password |
| AccountKeys.OnlyTheLastPasswordWorks | lib/routes/utils/signin.js:46-58 | after any sequence of operations a password is accepted if and only if the salt is not all ones and it hashes, under the last salt and version, to the same as the last password set |
| AccountKeys.StepKeepsAgreement | lib/routes/account.js:1032-1043 | each operation keeps the account and the user in agreement about the keys |
| AccountKeys.SecondKeyKept | lib/routes/password.js:231-249 | only a reset without the recovery key replaces the second key |
| AccountKeys.CreateAccountKeys | lib/routes/account.js:143-180 | a new account and its first key bundle |
| AccountKeys.FetchKeys | lib/routes/utils/signin.js:37-59 | succeeds if and only if the account exists, its salt is not all ones, and the submission hashes to what is stored; each error has its exact condition, and the bundle opens to the stored keys |
| AccountKeys.RewrapKeys | lib/routes/password.js:218-263 | the submitted key is wrapped with the new password |
| AccountKeys.ResetKeys | lib/routes/account.js:981-1043 | the recovered key is wrapped, or a new one is generated |
| AccountKeys.MustResetScript | scripts/must-reset.js:55-65 | afterwards every password is answered with the demand for a reset |
| Assurance.LevelMeaning | lib/tokens/session_token.js:78-93 | the assurance level is the number of distinct factors, which is two with a TOTP or recovery-code verification and one otherwise |
| Assurance.MaximumAssuranceLevel | lib/authMethods.js:85-91 | collecting the factors counts the distinct ones |
| SecondFactor.LevelTwoIsEarned | lib/routes/totp.js:246-317 | on every run a session at level two, or one it was duplicated from, presented a valid TOTP code or consumed a recovery code |
| SecondFactorRuns.TotpForcesVerification | lib/routes/account.js:502-589 | under TOTP every login and every reset of an existing account mints an unverified session that must be verified, whatever the heuristics say |
| SecondFactorRuns.WhatVerifyingAchieves | lib/routes/recovery-codes.js:128-144 | a valid TOTP code lifts a session to level two; a recovery code does so if and only if the session was unverified or there already, and is used up |
| SecondFactorRuns.RecoveryCodeSpentInVain | lib/routes/recovery-codes.js:140-144 | a session confirmed by e-mail spends a recovery code and stays at level one |
| SecondFactorRuns.LevelNeverDrops | lib/routes/session.js:175-189 | the level of a living session never drops |
| SecondFactor.StepLevels | lib/routes/session.js:265-301 | a level two after a step was there before, in the session or its original, or was earned in the step |
| SecondFactorRuns.EnabledTotpIsProtected | lib/routes/totp.js:125-143 | on every run an enabled TOTP token disappears if and only if a verified session at level two asks for it (of its user on the TOTP route, of anybody on the one that deletes the account), or the request purges an account whose primary address is unverified, or is an operator's; that session has shown a second factor |
| SecondFactorRuns.UnverifiedAccountLosesTotp | lib/routes/account.js:94-119 | an account that enrols in TOTP before its address is verified loses the enabled token to the next signup with that address |
| SecondFactorRuns.VerifiedStaysVerified | lib/routes/emails.js:547-576 | an account with a verified primary address keeps one, through changes of address too, until it is deleted on request: no purge reaches it |
| SecondFactorRuns.VerifiedAccountKeepsTotp | lib/routes/account.js:1201-1222 | from any point of a run on, an account with a verified primary address and an enabled token keeps both until a session at level two or an operator takes them away |
| SecondFactorRuns.EnabledByCodeOnly | lib/routes/utils/totp.js:19-32 | on every run having an enabled token is the same as having a verified one, and it comes about only by a valid code from a session of the user, which then is at level two |
| SecondFactorRuns.PasswordChangeUnderTotp | lib/routes/password.js:167-202 | on every run a password change under TOTP succeeds if and only if a stored session at level two comes with it, which has shown a second factor; it is a session of the user exactly when its user is the one whose password changes |
| SecondFactorRuns.AnyStrongSessionChangesPasswords | lib/routes/password.js:182-196 | a session of another user at level two carries a password change through and gets the user a verified session |
| SecondFactorRuns.AccountDeletionUnderTotp | lib/routes/account.js:1194-1222 | on every run deleting an account under TOTP succeeds if and only if a verified session at level two comes with it, and that session is the user's own exactly when its user is the one deleted |
| SecondFactorRuns.AnyStrongSessionDeletesAccounts | lib/routes/account.js:1204-1216 | a session of another user at level two gets an account with TOTP deleted |
| SecondFactor.StepIsConsistent | lib/routes/emails.js:720-735 | every request keeps accounts, addresses, sessions and TOTP tokens in step: each account holds its primary address, everything else belongs to an account |
| SecondFactorRuns.RefusalChangesNothing | lib/routes/emails.js:58-89 | a refused request changes nothing, with three exceptions stated by their guards: the status of an account with an unverified invalid address, a reset that asks for keys without a session, a signup whose random id is taken |
| AuthRoutes.CheckTotpToken | lib/routes/account.js:502-516 | a user with TOTP is made to verify by it; it is refused to one without, whose other choices are kept |
| AuthRoutes.AccountLogin | lib/routes/account.js:502-589 | the new session waits under TOTP, and else unless an unblock code was given or a heuristic skips it that is not overruled; with its duty, its mail and its key-fetch token |
| AuthRoutes.AccountReset | lib/routes/account.js:974-1118 | a reset deletes the sessions and may open one, unverified under TOTP |
| AuthRoutes.PasswordChangeFinish | lib/routes/password.js:167-202 | under TOTP it takes a stored session at level two; it ends all other sessions of the user, and the one it opens is verified exactly when the one presented was |
| AuthRoutes.SessionReauth | lib/routes/session.js:136-202 | changes of the tables nothing but the session's duty to verify, which it never lifts and always raises under TOTP; the mail goes to the user who signs in, and so does the key-fetch token |
| AuthRoutes.SessionDuplicate | lib/routes/session.js:265-301 | succeeds if and only if the session is stored; the copy has its user, method and duty, is verified if and only if it is, and else waits for an id of its own; all other sessions stay |
| AuthRoutes.TotpCreate | lib/routes/totp.js:75-81 | succeeds if and only if the session is verified and its user has no token yet, and enables nothing |
| AuthRoutes.TotpDestroy | lib/routes/totp.js:125-143 | an enabled token is deleted only at level two, an unfinished one always |
| AuthRoutes.TotpExistsRoute | lib/routes/totp.js:194-223 | reports a verified token and clears an unfinished one |
| AuthRoutes.SessionVerifyTotp | lib/routes/totp.js:275-317 | a valid code enables the token, replaces the recovery codes once, and verifies the session |
| AuthRoutes.SessionVerifyRecoveryCode | lib/routes/recovery-codes.js:128-144 | consumes the code and verifies an unverified session |
| AuthRoutes.RecoveryCodesReplace | lib/routes/recovery-codes.js:48-59 | succeeds if and only if the session is at level two; nobody else's codes change |
| AuthRoutes.AccountDestroy | lib/routes/account.js:1201-1222 | under TOTP only with a verified session at level two |
| AuthRoutes.AccountCreate | lib/routes/account.js:81-252 | an earlier account gives way only if its primary address is the same and unverified; only a preverified account starts with a verified session |
| AuthRoutes.SessionDestroy | lib/routes/session.js:34-66 | ends the session or another one of the same user |
| AuthRoutes.RecoveryEmailVerify | lib/routes/emails.js:352-418 | succeeds if and only if the code is the account's or a session of the user waits for it; then none does, and no assurance level changes |
| AuthRoutes.SessionVerifyTokenCode | lib/routes/token-codes.js:46-65 | succeeds if and only if a session of the user waits for the code, and then none does |
| AuthRoutes.VerifySecondaryEmail | lib/routes/emails.js:314-349 | verifies an address for its own user |
| AuthRoutes.RecoveryEmailCreate | lib/routes/emails.js:527-587 | the new address is the user's and unverified; another account gives way only if old enough and unverified at that address |
| AuthRoutes.RecoveryEmailDestroy | lib/routes/emails.js:639-680 | nobody loses a primary address, and nobody else an address |
| AuthRoutes.RecoveryEmailSetPrimary | lib/routes/emails.js:709-735 | succeeds if and only if the session is verified and the address is a verified one of its user |
| AuthRoutes.RecoveryEmailStatus | lib/routes/emails.js:55-114 | the three answers of the status are exact; deletes only unverified accounts |
| AuthRoutes.HandleBounce | lib/email/notifications.js:41-50 | deletes only a recent account with an unverified primary address |
| AuthRoutes.RecoveryEmailResendCode | lib/routes/emails.js:158-247 | of a session that waits, nothing is mailed if its user has TOTP; the code of an address given is mailed to its user, verified or not |
| AuthRoutes.FetchAccountKeys | lib/routes/account.js:876-900 | a bundle is handed out once, if and only if nothing is left to verify; a locked token is kept |
| RouteAnswers.LoginAnswer | lib/routes/account.js:502-589 | when a login is refused, what session it opens, and what the client is told |
| RouteAnswers.LoginMails | lib/routes/utils/signin.js:256-316 | which code a login mails, to whom |
| RouteAnswers.SignupAnswer | lib/routes/account.js:94-252 | when a signup is refused, and the account, address and session it makes |
| RouteAnswers.SignupKeepsOthers | lib/routes/account.js:94-119 | a signup harms nobody whose primary address is another |
| RouteAnswers.FinishResetAnswer | lib/routes/account.js:974-1118 | a reset ends all the user's sessions, and the one it opens waits exactly under TOTP |
| RouteAnswers.FinishPasswordChangeAnswer | lib/routes/password.js:167-359 | when a password change is refused, the sessions it ends and the one it opens |
| RouteAnswers.ReauthAnswer | lib/routes/session.js:136-217 | when signing in again is refused, when it raises the duty to verify, and what the client is told |
| RouteAnswers.DuplicateAnswer | lib/routes/session.js:260-301 | a duplicate is as verified as its original, and else waits for an id of its own |
| RouteAnswers.DestroySessionAnswer | lib/routes/session.js:39-66 | a session ends itself or another one of its user |
| RouteAnswers.VerifyCodeAnswer | lib/routes/emails.js:352-418 | a link ends the wait for its code and verifies the account's address |
| RouteAnswers.VerifyTokenCodeAnswer | lib/routes/token-codes.js:46-65 | a short code ends the wait for its id among the user's sessions |
| RouteAnswers.CreateTotpAnswer | lib/routes/totp.js:75-81 | a verified session of a user without a token starts the setup |
| RouteAnswers.DestroyTotpAnswer | lib/routes/totp.js:125-143 | an enabled token goes from a verified session at level two only, any other from every session of the user |
| RouteAnswers.TotpExistsAnswer | lib/routes/totp.js:194-223 | the answer is whether there is a verified token; an unverified one is cleared |
| RouteAnswers.VerifyTotpEnables | lib/routes/totp.js:291-309 | a valid code enables a new token and replaces the recovery codes, and nobody else's |
| RouteAnswers.VerifyTotpLifts | lib/routes/totp.js:312-317 | a valid code lifts the session to level two, or leaves it there |
| RouteAnswers.VerifyRecoveryCodeAnswer | lib/routes/recovery-codes.js:128-144 | the code is used up, no other is, and a waiting session is verified |
| RouteAnswers.ReplaceRecoveryCodesAnswer | lib/routes/recovery-codes.js:48-59 | only a session at level two replaces the codes, those of its user |
| RouteAnswers.VerifySecondaryAnswer | lib/routes/emails.js:314-349 | an address is verified for its user and nothing else changes |
| RouteAnswers.CreateEmailAnswer | lib/routes/emails.js:527-576 | the exact condition under which an address can be added |
| RouteAnswers.CreateEmailChanges | lib/routes/emails.js:547-587 | the address is then the user's; an unverified account that held it is erased, and nobody else is touched |
| RouteAnswers.DestroyEmailAnswer | lib/routes/emails.js:639-680 | a verified session deletes an address of its user that is not the primary one |
| RouteAnswers.SetPrimaryAnswer | lib/routes/emails.js:709-735 | a verified address of the user becomes the primary one, and nobody else's changes |
| RouteAnswers.PollStatusAnswer | lib/routes/emails.js:55-114 | each of the three answers is exact; an invalid unverified address erases the account |
| RouteAnswers.BouncedAnswer | lib/email/notifications.js:41-50 | a bounce erases a recent account with an unverified primary address and no other |
| RouteAnswers.DestroyAccountAnswer | lib/routes/account.js:1201-1240 | when the deletion of an account is refused; otherwise of the user nothing is left, and of everybody else everything |
| RouteAnswers.OperatorDeleteAnswer | scripts/delete-account.js:42-60 | the operators' script deletes every known account |
| RouteAnswers.FirstMails | lib/routes/emails.js:589-605 | a signup and a new address are mailed their codes |
| RouteAnswers.MailedAgain | lib/routes/emails.js:223-247 | what is mailed again without an address given |
| RouteAnswers.OnlyTheseMail | lib/routes/utils/signin.js:256-268 | no other request mails a code, and no refused one does |
| AuthRoutes.PasswordChangeStart | lib/routes/password.js:57-115 | mints an open key-fetch token for a known user |
| AuthRoutes.SendSigninNotifications | lib/routes/utils/signin.js:256-316 | a sign-in mails the code its account, session and method call for, to the user who signs in |
| KeyGates.MintedOpenUnderTotp | lib/routes/utils/signin.js:398-413 | while a user has TOTP, a key-fetch token that is open from the start comes from the beginning or the end of a password change or from signing in again in a verified session, and from nothing else |
| KeyGates.MintedWithItsSession | lib/routes/utils/signin.js:398-413 | a key-fetch token is minted if and only if keys were asked for, and but for the end of a password change it waits for what its session waits for |
| KeyGates.TokensOpenWithTheirSession | lib/tokens/key_fetch_token.js:17-19 | a request that verifies a waiting session opens every token of its user that waits for the same id |
| KeyGates.DroppedWithTheAccount | lib/routes/account.js:1239-1240 | tokens go with their account, and otherwise only together with all sessions of the user |
| KeyGates.ResetsLeaveNoTokens | lib/routes/password.js:237-249 | after a reset or a password change the user has no token but the new one |
| KeyGates.EveryTokenIsExplained | lib/routes/account.js:1121-1142 | on every run from the empty server each key-fetch token is as it was minted, or was minted locked and the wait for its id was ended later |
| KeyGates.LockedUntilEnded | lib/tokens/key_fetch_token.js:12-20 | a locked key-fetch token hands out nothing until the wait for its verification id is ended |
| KeyGates.PasswordChangeNeedsNoFactor | lib/routes/password.js:76-92 | the beginning of a password change hands out the keys on the password alone, TOTP or not, if and only if the primary address is verified |
| MailGates.LoginUnderTotpNeedsFactor | lib/routes/utils/signin.js:256-316 | after a login under TOTP of a user with a verified address, for as long as the user keeps TOTP and nobody who is mailed its id signs in again in the new session, that session is gone, still waits or is at level two, and neither it nor the keys asked for open before the session has presented a TOTP or recovery code |
| MailGates.DuplicatesNeedFactorToo | lib/routes/session.js:265-301 | of a login's session under TOTP and all sessions duplicated from it, directly or through others, none is verified before it or one it descends from has presented a second factor, under the guards of the login's own |
| MailGates.SignInMailsTheId | lib/routes/session.js:175-193 | signing in again in a session that must be verified mails its id if and only if it is done as a user whose address is unverified, or who has no TOTP and verifies by mail |
| MailGates.SigningInElsewhereIsEnough | lib/routes/session.js:191-202 | after one such sign-in the code of its mail verifies the session and unlocks its keys without a second factor |
| MailGates.ElsewhereOpensWithoutFactor | lib/routes/session.js:152-202 | on a run from the empty server a user without TOTP signs in again in the waiting session of a user with TOTP, and the mailed id opens that session and its keys |
| MailGates.UnverifiedOpensWithoutFactor | lib/routes/utils/signin.js:257-271 | on a run from the empty server a login under TOTP of a user with an unverified address mails the id, which opens the session and its keys |
| MailGates.StepKeepsTheSeal | lib/routes/emails.js:223-247 | no request gets the id of a sealed login into a mail, an address's code or another session |
| MailGates.WhatIsMailedAgain | lib/routes/emails.js:201-222 | the code of an address given is mailed again if and only if the address is the session user's, verified or not |
| MailGates.VerifiedAddressIsMailedAgain | lib/routes/emails.js:219-222 | the code of a verified address is mailed again |
| RandomCodes.RandomValue | lib/crypto/random.js:48-63 | one symbol per word, the index always in range |
| RandomCodes.IndexIsQuotient | lib/crypto/random.js:57-58 | the scaled fraction is an integer quotient below the alphabet size, exact in double precision |
| RandomCodes.NearlyUniform | lib/crypto/random.js:48-63 | each symbol is chosen by the rounded-down or rounded-up share of the 2^32 words |
| RandomCodes.Base32IsUniform | lib/crypto/random.js:10-10 | each of the 32 symbols is chosen by exactly 2^27 words |
| RandomCodes.Base10IsNearlyUniform | lib/crypto/random.js:11-11 | each digit is chosen by 429496729 words or by one more |
| RandomCodes.OneGroupPerWord | lib/crypto/random.js:57-57 | each word is read from exactly one group of bytes |
| UrlSafeBase64.RoundTrip | lib/senders/sms.js:166-172 | a sign-in code comes back as the bytes it was made from |
| UrlSafeBase64.EncoderInjective | fxa-oauth-server/lib/util.js:20-25 | different bytes get different texts |
| UrlSafeBase64.EncoderShape | fxa-oauth-server/lib/util.js:20-25 | the text stays in the alphabet of section 5 of RFC 4648, has four characters for three bytes, and 43 for 32 bytes |
| UrlSafeBase64.UrlSafeSpellsSextets | lib/senders/sms.js:166-172 | the three global replacements spell the six-bit groups in that alphabet |
| UrlSafeBase64.HexSigninCode | lib/routes/signin-codes.js:38-47 | neither the substitutions nor the padding change what is decoded |

## Left out

- OAuthServer.Authorization: the redirect URL with code and state appended, the state parameter and the splitting of `acr_values` into words; the requested words are given as a list.
- OAuthServer.Token: credentials in a basic authorization header, and the contents of the signed OpenID token, of which only its presence is modelled.
- OAuthServer.ValidateAuthorizationCodeGrant: comparing buffers of different lengths raises another error in the source than a mismatch; both refuse the request.
- OAuthServer.VerifyToken: warnings about old tokens, and the time of profile changes, which the memory store does not keep for access tokens.
- OAuthGrants.GrantCheckMeaning: how scope sets represent implied scopes; they are plain sets under a preorder.
- OAuthStore.MemoryStore.GenerateAccessToken: the table is keyed by the hash the store computes; the row does not repeat it, nor the constant token type.
- ActiveClients.SortClients: the library sort is modelled as an insertion sort; the order of entries with equal time and name is unspecified in both. Names are compared by code points.
- ActiveClients.SortScopes: the library sort is modelled as an insertion sort, and texts are compared by code points instead of UTF-16 code units.
- SessionCache.Cache.Sessions: the merging of the other columns, the last access time withheld where the feature is off, and a Redis that fails while reading.
- CacheCodec.PackThenUnpack: JSON text itself; values go through JSON by turning undefined array elements into null. A stored value is missing, not JSON, or a JSON object.
- Reminders.Run: failures of Redis or of the database other than an unknown account, which abort the script.
- Reminders.VerificationReminders.Process: the order in which Redis lists due members; nothing depends on it.
- MailRouting.SelectEmailServices: evaluating percentages and regular expressions; whether a rule matched is given for each address.
- RandomCodes.IndexIsQuotient: floating-point rounding, which does not occur for alphabets of up to 2^21 symbols, as the bound on the product shows.
- KeyWrapping.UnbundleInvertsBundle: hexadecimal text; keys and bundles are byte strings.
- AccountKeys.FetchKeys: flagging of wrong passwords with the rate limiter.
- AuthRoutes.AccountLogin: the individual heuristics for skipping or forcing verification, rate limits, and the check of the password, which is right in every request modelled.
- AuthRoutes.AccountDestroy: the password check, which is right in every request modelled.
- AuthRoutes.RecoveryEmailCreate: the mail that goes to the new address, whose failure takes the address back.
- AuthRoutes.VerifySecondaryEmail: how a code is matched; the address it belongs to is given.
- AuthRoutes.SessionVerifyTokenCode: the short code itself and its expiry; the verification id it stands for is given.
- SecondFactor.LevelTwoIsEarned: what the auth database does inside one call is taken from its call names: verifying with a method records it, verifying by e-mail or code does not change the method, deleting an account deletes what belongs to it.
- SecondFactorRuns.EnabledTotpIsProtected: bounces from the older queue (`lib/email/bounces.js:33-42`) delete under the same condition as the modelled ones and are the same request; an account's age enters as a given fact.
- KeyGates.LockedUntilEnded: that verifying a session opens the key-fetch tokens with its verification id, and that a reset deletes the user's, happens inside the auth database and is assumed. The contents of the bundles are those of `AccountKeys`.
- MailGates.LoginUnderTotpNeedsFactor: guessing a short code, which is rate-limited, and reminder mails, which carry only codes of addresses; these count as known. Mails that cannot be sent.
- Session duplication and the time of last authentication: creation times are not part of the session model.
- Introspection, developers, client registration and per-user removal in the OAuth memory store.
- HTTP, request schemas beyond the facts stated, pools, queues, push, SMS delivery, geolocation, user agents, metrics, logging and templates.
- Interleavings inside a handler: the source does not protect the time between reading and removing a code.
