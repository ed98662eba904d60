# PubAuth: proofs about tokens, storage and the gateway

PubAuth is an OIDC provider with an authenticating gateway in front of registered products. This
project models its stateful core in Dafny and proves what the rest of the system relies on:

- **Token lifecycle.** Authorization, code exchange, refresh rotation, reuse detection, login and
  logout, as a machine over the rows of `state.json`. `TokenRuns` takes one request as one step and
  proves what runs of requests that do not overlap keep. `Interleavings` takes one store operation as
  one step, with any number of requests under way, and proves what no interleaving can break. It also
  proves that an authorization, an exchange or a refresh whose steps run without interruption does
  exactly what the one-step form does. `Overlaps` proves, for every interleaving, exactly which
  exchanges and refreshes go through, when a family keeps to one live row, and when a revoked family
  stays revoked; `Races` gives executions that end with a code exchanged twice, with a forked family
  and with a live row in a family revoked for reuse.
- **State file.** `LockProtocol` models the promise-chained lock of one `JsonFileStore`: calls queue,
  wait, read, update, replace the file and release; file operations and updaters may fail.
- **Repositories.** `Stores` proves the file-backed classes against functions on row lists, and that
  the key-by-key Redis refresh repository answers like the list-backed one.
- **Signed tokens.** `Base64Url`, `Jwt`, `SigningKeys` and `Acceptance`: unpadded base64url, the JWS
  compact form, key reloading, and the two independent checks that accept an access token.
- **Gateway.** `PathPattern`, `Credentials` and `Gateway`: percent-decoding path normalisation,
  pattern matching, reading the credential, rule order, and two first-match evaluators that must agree.
- **Completeness.** `Completeness` is the other direction of the safety results: over any run, which
  requests succeed with a code, a refresh token or a session, and that no others do; and what a created
  client or route policy admits.
- **Administration.** `Slugs`, `Catalog`, `Overview` and `AccountLinking`: catalog integrity, the
  tenant-scoped overview, and the link between an external identity and an account. `LoginOverlaps`
  takes one store operation of a broker login as one step, with any number of logins under way.

Objects whose methods change stored state are classes over a shared `StateFile`; each method is proved
equal to a function on the old state, and the lemmas are about that function. Modules without state
are functions. Times are integer milliseconds. Random ids, secrets and clock readings are parameters;
a run may draw only values that are new. `Jwt.Platform` holds what Node supplies: JSON text, base64
decoding, RSA, hashing, password verification and case mapping. `Jwt.Sound` states what is assumed
of it: parsing inverts printing, base64 decoding inverts encoding, a key pair accepts its own
signatures, and signatures and JSON texts are not empty. `Slugs.KeepsSlugs` assumes that lower-casing
leaves lower-case letters, digits and hyphens alone. Freshness of a random secret is stated on its
hash, so two secrets in use never share a hash. Access tokens are assumed to be signed with a new token
id; that they never repeat is proved from that (`Interleavings.ExecutionSteps`).

Start with the main results: `LockProtocol.Linearizable`, `TokenRuns.FamiliesAreChains`,
`TokenRuns.ReuseIsFinal`, `TokenRuns.CodesAreSingleUse`, `Interleavings.Provenance`,
`Interleavings.LogoutIsFinal`, `Interleavings.IssuedTokenStaysAccepted`,
`Overlaps.ExchangeGoesThroughIff`, `Overlaps.DeadForeverIff`, `Acceptance.ChecksAgree`,
`Stores.RedisAnswersLikeFile`, `Gateway.DecisionMeaning`, `PathPattern.MatchMeaning`,
`Catalog.CatalogIntegrity`, `Overview.OutsideEditsUnseen`, `AccountLinking.LinksAreStable`,
`LoginOverlaps.OneLinkUnlessOverlap`.

## What the proofs turned up

- A code or refresh token is found, then marked, in separate store operations. Single use, one chain
  per family and dead families therefore hold for requests that do not overlap; provenance, flags that
  stay set and logout hold for every interleaving. What holds of overlapping requests instead:
  - An exchange goes through exactly when it presents the code as issued, in time, and looks it up
    before any request marked it; a refresh likewise, before any request rotated the token or revoked
    its family (`Overlaps.ExchangeGoesThroughIff`, `Overlaps.RefreshGoesThroughIff`).
  - Two requests past the find of one token fork its family (`Overlaps.OverlapForksFamily`). No family
    ever has two live rows exactly when every successor is saved while all rows of its family are
    revoked (`Overlaps.OneLiveRowIff`).
  - A revoked family stays revoked in whatever follows exactly when no request is under way that
    already found one of its tokens good (`Overlaps.DeadForeverIff`).
  - All three failures do happen, from an empty token store, for any client and any code it can
    exchange: a code exchanged twice (`Races.DoubleExchangeSucceeds`), a forked family
    (`Races.RotationsFork`), and a family with a live row after it was revoked for reuse
    (`Races.RevokedFamilyRevives`).
- A broker login likewise looks its identity up and saves the link later. In every interleaving each
  identity keeps one link exactly when no two of its first logins overlap, one saving its link between
  the other's look-up and save (`LoginOverlaps.OneLinkUnlessOverlap`). Such logins do leave one identity
  with two accounts linked (`LoginOverlaps.DoubleLinkReachable`). No login ever finds its linked account
  missing, overlapping or not (`LoginOverlaps.LinkedUserNeverMissing`).
- A refresh also stores a row in a fresh family whose secret is then overwritten in the response
  (`packages/oidc/src/dev-token-issuer.ts:120-123`); no response of any run ever carries that secret
  (`Completeness.OverwrittenNeverReturned`). The chain results speak of every family, this one included.
- A throwing updater changes nothing a reader can see, but it changes the file when there was none:
  reading first writes the default (`LockProtocol.ThrowingUpdate`).
- Revoking an expired refresh token marks the row in the file repository and not in Redis; `find`
  hides the difference as long as the clock does not run backwards. The rows stay equal exactly when
  the token is missing, unexpired or already so marked (`Stores.RevokeKeepsRowsIff`).
- Path normalisation is idempotent exactly when no decoded segment holds a percent sign or a question
  mark (`PathPattern.IdempotentIff`).
- A product with an empty slug can be erased by a later one whose slug spells the random id
  (`Catalog.EmptySlugIsErased`). A create loses no record exactly when it is refused or its id is free,
  and a run loses none exactly when every accepted create saved under a free id
  (`Catalog.CreateKeepsIff`, `Catalog.RunKeepsIff`).
- The overview cuts the audit list to the latest 50 events before it filters them, so events of other
  tenants can push an actor's own events out of its view; the view is unchanged exactly when no event
  pushed out was in scope (`Overview.OutsideEventsUnseenIff`). The filter itself is free of
  interference.

## Model

| member | source | states |
|---|---|---|
| LockProtocol.Linearizable | packages/storage/src/json-file-store.ts:13-60 | in every interleaving of calls on one store: at most one body under way, bodies in call order, each finished call has its one-at-a-time outcome, and in every reachable state the file is the one-at-a-time result of the finished calls, changed at most by what the one body under way has done: its seeding read, or its whole effect |
| LockProtocol.NoCallIsStuck | packages/storage/src/json-file-store.ts:32-46 | in every reachable state exactly the oldest unfinished call can move; with no further calls the rest ends in bounded steps, and when nothing can move every call is released |
| LockProtocol.ThrowingUpdate | packages/storage/src/json-file-store.ts:17-24 | a throwing updater makes the call throw and leaves what a reader gets unchanged; the file itself changes exactly when it did not exist |
| LockProtocol.JsonFileStore.WithLock | packages/storage/src/json-file-store.ts:32-38 | calling queues a new promise behind the one found in `queue` |
| LockProtocol.JsonFileStore.Enter | packages/storage/src/json-file-store.ts:38-41 | a call enters its body only when the promise it found is resolved |
| LockProtocol.JsonFileStore.ReadFile | packages/storage/src/json-file-store.ts:48-60 | a read merges the defaults under the stored properties, fails on a corrupt file, and goes on to seed a missing one |
| LockProtocol.JsonFileStore.SeedFile | packages/storage/src/json-file-store.ts:52-57 | a missing file is written with the default value, which is then what was read |
| LockProtocol.JsonFileStore.RunUpdater | packages/storage/src/json-file-store.ts:17-22 | a throwing updater ends the body with nothing to write |
| LockProtocol.JsonFileStore.WriteFile | packages/storage/src/json-file-store.ts:62-70 | the write replaces the whole file in one step or fails and leaves it |
| LockProtocol.JsonFileStore.Release | packages/storage/src/json-file-store.ts:42-45 | the own promise is resolved whether the body returned or threw |
| TokenRuns.FamiliesAreChains | packages/oidc/src/dev-token-issuer.ts:70-124 | in every state of every run of non-overlapping requests each family is one finite duplicate-free chain; every child's parent is in the family, revoked, and names it; at most one row is unrevoked |
| TokenRuns.ReuseIsFinal | packages/oidc/src/dev-token-issuer.ts:80-88 | presenting an unexpired rotated or revoked token fails, leaves every row of the family revoked in all later states, and no later request with a token of the family succeeds |
| TokenRuns.CodesAreSingleUse | packages/oidc/src/dev-token-issuer.ts:36-68 | over any run a code is exchanged at most once, before expiry, by its own authenticated client, with the recorded redirect URI if one is sent and a verifier whose S256 is the challenge |
| Interleavings.FlagsStaySet | packages/storage/src/repositories.ts:401-428 | in no interleaving does a step drop a row, change whom it speaks for, or clear `usedAt` or `revokedAt` |
| Interleavings.Provenance | packages/oidc/src/dev-token-issuer.ts:59-118 | in every interleaving each access and refresh row agrees on client, subject, workspace, session and scopes with a stored used code whose scopes an active client was allowed when it was issued |
| Interleavings.LogoutIsFinal | packages/session/src/local-account-session-service.ts:53-55 | after logout every access token descending from a code of that session, issued before or after, is rejected by gateway and UserInfo in all later states of every interleaving |
| Interleavings.IssuedTokenStaysAccepted | packages/oidc/src/dev-token-issuer.ts:126-199 | a saved access token is accepted by both checks with its subject, workspace and roles in every later state, before its JWT expiry, across any number of key reloads that keep its key, while its session is live |
| Interleavings.ExecutionSteps | packages/oidc/src/dev-token-issuer.ts:126-171 | if every access token is signed with a new token id, no access token is ever issued twice, in any interleaving |
| Interleavings.SoloAuthorize | packages/oidc/src/authorization-service.ts:14-57 | the two steps of an authorization, run without interruption, do what it does as one step |
| Interleavings.SoloExchange | packages/oidc/src/dev-token-issuer.ts:36-68 | the store operations of a code exchange, run without interruption, do what the request does as one step |
| Interleavings.SoloRefresh | packages/oidc/src/dev-token-issuer.ts:70-124 | the same for a refresh, whether it rotates, detects reuse or is refused |
| Interleavings.OverlapBothSucceed | packages/oidc/src/dev-token-issuer.ts:42-61 | two requests that both found the same code or refresh token good both finish with success, whatever they draw |
| Overlaps.MarkedNeverFound | packages/oidc/src/file-stores.ts:59-78 | once a code is marked, in any interleaving, no later look-up finds it usable |
| Overlaps.ExchangeGoesThroughIff | packages/oidc/src/dev-token-issuer.ts:36-61 | in every interleaving an exchange goes through exactly when it presents the stored code as issued and in time and no request marked the code before its look-up; otherwise it is refused |
| Overlaps.RefreshGoesThroughIff | packages/oidc/src/dev-token-issuer.ts:70-110 | in every interleaving a refresh goes through exactly when its client presents a stored token in time and no request rotated the token or revoked its family before the look-up |
| Overlaps.OverlapForksFamily | packages/oidc/src/dev-token-issuer.ts:92-110 | two requests past the find of one token each leave a live child of it, so the family is no chain |
| Overlaps.OneLiveRowIff | packages/oidc/src/dev-token-issuer.ts:92-110 | over every interleaving no family ever has two live rows exactly when every successor is saved while all rows of its family are revoked |
| Overlaps.ChainKeepsOneLiveIff | packages/oidc/src/dev-token-issuer.ts:98-110 | saving one successor keeps at most one live row exactly when no row of the family was live before |
| Overlaps.DeadForeverIff | packages/oidc/src/dev-token-issuer.ts:80-110 | a family whose rows are all revoked stays so in whatever follows exactly when no request is under way that already found one of its tokens good |
| Races.DoubleExchangeSucceeds | packages/oidc/src/dev-token-issuer.ts:36-68 | for any client and any code it can exchange, some execution from an empty token store reaches two requests about to look that code up, and from there a world in which both succeeded and the code brought two refresh tokens |
| Races.CodeIsExchangedTwice | packages/oidc/src/dev-token-issuer.ts:36-68 | the same with every value given |
| Races.DoubleRotationReachable | packages/oidc/src/dev-token-issuer.ts:80-97 | for any such client some execution reaches two requests about to rotate the same refresh token |
| Races.RotationsFork | packages/oidc/src/dev-token-issuer.ts:92-110 | from there some moves lead to a world in which that token has two live children and its family is no chain |
| Races.FamilyIsForked | packages/oidc/src/dev-token-issuer.ts:92-110 | the same with every value given, from one client and an empty token store |
| Races.RevocationOutrun | packages/oidc/src/dev-token-issuer.ts:80-97 | from two such requests some moves lead to a family just revoked for reuse with a rotation of one of its tokens still under way |
| Races.RevokedFamilyRevives | packages/oidc/src/dev-token-issuer.ts:80-110 | and from there to a world in which that family has a live row again |
| Races.RevocationIsOutrun | packages/oidc/src/dev-token-issuer.ts:80-110 | the revived family with every value given, from one client and an empty token store |
| TokenIssuer.DevTokenIssuer.Issue | packages/oidc/src/dev-token-issuer.ts:21-34 | client check first, then dispatch on the grant type; new state and response are those of the specification the runs use |
| TokenIssuer.DevTokenIssuer.IssueAuthorizationCodeToken | packages/oidc/src/dev-token-issuer.ts:36-68 | find, four checks in order, mark used, issue; every refusal leaves the state alone |
| TokenIssuer.DevTokenIssuer.IssueRefreshToken | packages/oidc/src/dev-token-issuer.ts:70-124 | refused, reuse (family revoked), or rotation with both writes, and the response carries the successor's secret |
| TokenIssuer.DevTokenIssuer.Tokens | packages/oidc/src/dev-token-issuer.ts:126-199 | saves one access row and one fresh-family refresh row, both for the grant, and returns tokens signed for it |
| TokenIssuer.FindClient | packages/oidc/src/file-stores.ts:11-25 | a client is found only if stored under the id and active |
| Authorization.DefaultAuthorizationService.Start | packages/oidc/src/authorization-service.ts:14-57 | five checks in order, each refusal leaving the state alone, then one new code row with the request's data, 60 seconds to live |
| Authorization.CheckAuthorize | packages/oidc/src/authorization-service.ts:15-36 | scopes are granted only by an active client that allows every one of them |
| Authorization.LocalAccountSessionService.LogIn | packages/session/src/local-account-session-service.ts:24-51 | bootstrap and credential refusals leave the state alone; success saves the session and the user's last login |
| Authorization.LocalAccountSessionService.LogOut | packages/session/src/local-account-session-service.ts:53-55 | exactly the rows of the session are revoked |
| Stores.RedisAnswersLikeFile | packages/storage/src/repositories.ts:590-641 | for every serial sequence of saves, finds, revokes and family revokes with a clock that never runs backwards, all `find` answers of the Redis and the file repository are equal |
| Stores.StepSimulates | packages/storage/src/repositories.ts:391-429 | after any operation the two hold equal rows per hash, or rows that differ only in `revokedAt` and have expired |
| Stores.RevokeKeepsRowsIff | packages/storage/src/repositories.ts:611-617 | from equal rows a revoke keeps the two equal exactly when the token is missing, unexpired, or already revoked at that time |
| Stores.OthersKeepRows | packages/storage/src/repositories.ts:593-641 | saves, finds and family revokes keep equal rows equal |
| Stores.ExpiredRowsDiffer | packages/storage/src/repositories.ts:611-617 | on an expired token the stored rows do differ, and a clock set back would show it |
| Stores.RedisRefreshTokenRepository.RevokeAll | packages/storage/src/repositories.ts:619-641 | the loop over keys, in any order and with repeats, revokes exactly the rows of the family |
| Stores.RedisRefreshTokenRepository.RevokeOne | packages/storage/src/repositories.ts:611-617 | revokes the row unless it is missing or expired |
| Stores.FileRefreshTokenRepository.RevokeAll | packages/storage/src/repositories.ts:421-428 | every row of the family gets `revokedAt`, in its place; every other row and every other table is unchanged |
| Stores.FileRefreshTokenRepository.Find | packages/storage/src/repositories.ts:401-409 | returns the row of the hash unless it has expired, revoked or not |
| Stores.FileAuthorizationCodeStore.Consume | packages/oidc/src/file-stores.ts:80-87 | returns a usable code and marks it used, or returns none and changes nothing |
| Stores.MarkedIsUnusable | packages/oidc/src/file-stores.ts:59-78 | a marked code is never found usable again |
| Stores.FileAccessTokenStore.Find | packages/oidc/src/file-stores.ts:100-115 | an access token is found only if neither revoked nor expired |
| Stores.FileSessionRepository.RevokeOne | packages/storage/src/repositories.ts:451-457 | every row of the session gets `revokedAt`, all else is unchanged, and the session is live at no time from then on |
| Tables.LookupUpsert | packages/storage/src/repositories.ts:710-721 | after `upsertByKey` the saved row is what its key returns and every other key is untouched |
| Tables.UpsertUnique | packages/storage/src/repositories.ts:710-721 | upserting keeps keys unique |
| Base64Url.UrlRoundTrip | packages/crypto/src/base64url.ts:1-8 | `toBase64` rebuilds the exact padded text for every byte string, decoding returns the bytes, and the stripped text holds only URL-safe characters, so no dot |
| Base64Url.DecodeEncode | packages/crypto/src/jwt.ts:180-182 | base64 decoding undoes encoding (section 4 of RFC 4648) |
| Jwt.SignedParts | packages/crypto/src/jwt.ts:93-115 | a signed token splits at its dots into exactly the three parts joined, none empty, and the first two are the signing input |
| Jwt.VerifyRecovers | packages/crypto/src/jwt.ts:117-149 | verifying with the matching key recovers the signed header and payload; only a claim check on that payload can fail |
| Jwt.SignInjective | packages/crypto/src/jwt.ts:93-115 | equal tokens carry equal payloads and key ids |
| SigningKeys.ReloadsKeepTrust | packages/oidc/src/signing-key-service.ts:40-44 | a key no listing disables or drops stays trusted across any number of reloads, empty listings included |
| SigningKeys.TrustedTokenVerifies | packages/oidc/src/signing-key-service.ts:48-95 | a service that trusts the signer's key picks it by `kid` and recovers the signed payload |
| SigningKeys.SigningKeyService.Reload | packages/oidc/src/signing-key-service.ts:40-44 | both fields change together, or neither when no usable key is left; an empty listing falls back on the old keys |
| SigningKeys.CreateSigningKeyService | packages/oidc/src/signing-key-service.ts:10-38 | a key is generated and saved exactly when none is stored; creation fails exactly when keys are stored and all disabled |
| SigningKeys.SignerFor | packages/oidc/src/signing-key-service.ts:52-80 | a key is picked only if usable and of that id, and one is picked if there is any |
| Acceptance.ChecksAgree | packages/gateway/src/runtime.ts:134-179 | on one snapshot and clock the gateway accepts a token exactly when UserInfo does and `sub` and `workspace_id` are non-empty strings, and both then name the same two |
| Acceptance.IssuedTokenAccepted | packages/oidc/src/dev-userinfo-service.ts:14-64 | an issued, recorded, unexpired token with a trusted key and a live session is accepted by both checks with the very subject, workspace and roles it was issued for |
| Acceptance.ExpiryConsistent | packages/oidc/src/dev-token-issuer.ts:127-171 | passing the JWT expiry check at a millisecond implies an unexpired record; the record outlives the JWT by less than a second plus the delay; the JWT lives more than 3599 and at most 3600 seconds from signing |
| PathPattern.MatchMeaning | packages/http/src/path-pattern.ts:11-31 | a pattern matches exactly when its decoded segments equal, or before `/**` are a prefix of, the path's |
| PathPattern.RecursiveCover | packages/http/src/path-pattern.ts:11-31 | one recursive pattern covers another on all paths exactly when its segments are a prefix |
| PathPattern.NormalizedPathSplitsBack | packages/http/src/path-pattern.ts:33-58 | the slash collapse is a no-op, the normalised path splits back to the decoded segments, and each segment is an allowed one |
| PathPattern.IdempotentIff | packages/http/src/path-pattern.ts:7-58 | normalising a normalised path changes nothing exactly when no decoded segment holds a percent sign or a question mark |
| Credentials.ReadCookieValue | packages/gateway/src/proxy.ts:204-214 | the loop with early return gives the value of the first part of that name, none if that value is empty |
| Credentials.CookieRoundTrip | packages/gateway/src/proxy.ts:204-214 | reading a header written from well-formed cookies gives the first cookie of the name, equals signs in values included |
| Gateway.FirstMatchIsBest | packages/gateway/src/runtime.ts:115-127 | the first match in rule order is the active matching policy of highest priority, the earliest stored on ties, and there is none only if none matches |
| Gateway.EvaluatorsAgree | packages/gateway/src/proxy.ts:49-90 | route resolver and policy evaluator pick the same policy, so the decision is the one that policy makes alone |
| Gateway.RouteFollowsFirstMatch | packages/gateway/src/policy.ts:18-38 | the route decision is that of the first matching active policy, with the source's reasons |
| Gateway.PolicyFollowsFirstMatch | packages/rbac/src/policy.ts:28-60 | the role decision is that of the same policy, with the source's reasons |
| Gateway.DecisionMeaning | packages/gateway/src/runtime.ts:65-113 | a request is allowed exactly when the best matching policy has an upstream and a product, lists the method and a role that the verified principal holds; the request to forward then carries that policy's upstream URL |
| Gateway.OrderIrrelevant | packages/gateway/src/runtime.ts:115-127 | if matching policies have distinct priorities, reordering the stored policies leaves the whole decision unchanged |
| Gateway.IdentityHeadersAreTrusted | packages/gateway/src/headers.ts:8-27 | upstream sees identity headers only as the gateway wrote them, under any spelling, and every other header unchanged |
| Slugs.SlugJoinsRuns | packages/admin/src/file-admin-service.ts:40-46 | a slug is the maximal alphanumeric runs of the trimmed lower-case text joined by single hyphens |
| Slugs.SlugFixedIff | packages/admin/src/file-admin-service.ts:40-46 | a text is its own slug exactly when it is empty or joins runs by single hyphens |
| Slugs.SlugIdempotent | packages/admin/src/file-admin-service.ts:40-46 | normalising twice is normalising once |
| Catalog.CatalogIntegrity | packages/admin/src/file-admin-service.ts:77-233 | over any run of commands with non-empty slugs and fresh ids: ids and slugs unique, every reference resolves, clients carry their product's workspace, and no record is lost or altered |
| Catalog.SeedHasIntegrity | packages/storage/src/pubauth-state.ts:226-304 | a catalog shaped like the seeded one satisfies the invariant that the runs start from |
| Catalog.CreateKeepsIff | packages/storage/src/repositories.ts:710-714 | a create loses or alters no stored record exactly when it is refused or the id it saves under is free |
| Catalog.RunKeepsIff | packages/admin/src/file-admin-service.ts:77-233 | over any run of commands, empty slugs and repeated ids included, no record is ever lost exactly when every accepted create saved under a free id |
| Catalog.EmptySlugIsErased | packages/admin/src/file-admin-service.ts:78-105 | a product created without a slug is erased by the next one whose slug spells its random id |
| Tables.UpsertAppends | packages/storage/src/repositories.ts:710-714 | saving under a new id appends and leaves every row in place |
| Catalog.FileAdminService.AddProduct | packages/admin/src/file-admin-service.ts:77-116 | refusals for a missing workspace and a taken slug, in that order, leave the state alone; success saves one product |
| Catalog.FileAdminService.AddWorkspace | packages/admin/src/file-admin-service.ts:118-151 | a taken slug is refused; success saves one workspace |
| Catalog.FileAdminService.AddClient | packages/admin/src/file-admin-service.ts:153-195 | a missing product is refused; success saves one client in the product's workspace, with `openid` among its scopes |
| Catalog.FileAdminService.AddRoutePolicy | packages/admin/src/file-admin-service.ts:197-233 | a missing product is refused; success saves one active policy of priority 100 with distinct upper-case methods and trimmed roles |
| Overview.FilterIdempotent | packages/admin/src/access-control.ts:114-167 | filtering a filtered view changes nothing, and a scoped view counts exactly what it lists |
| Overview.OutsideEditsUnseen | packages/admin/src/access-control.ts:114-167 | however many records wholly outside an actor's workspaces and products come and go, anywhere, a non-super-admin's view is unchanged |
| Overview.OutsideEventsUnseenIff | packages/storage/src/repositories.ts:494-497 | for any positive limit, new events outside the scope leave the visible recent events unchanged exactly when every event they push out of the window is outside the scope |
| Overview.OutsideEventsFillWindow | packages/storage/src/repositories.ts:494-497 | new outside events that fill the window hide every event inside the scope |
| Overview.ManagedIsVisible | packages/admin/src/access-control.ts:169-191 | whatever product an actor may manage it also sees, with all its clients and route policies |
| Overview.Grants | packages/admin/src/access-control.ts:203-218 | the grants are exactly the actor's assignments to one of the four admin roles |
| AccountLinking.LinksAreStable | packages/broker/src/account-linking-service.ts:12-64 | over any run of non-overlapping logins each external identity has at most one link, its account exists and never changes, and no account is overwritten except for its last login |
| AccountLinking.RepeatLoginsAgree | packages/broker/src/account-linking-service.ts:12-27 | no broker login of a run finds its linked account missing, and repeated logins return the same account |
| LoginOverlaps.OneLinkUnlessOverlap | packages/broker/src/account-linking-service.ts:12-64 | in every interleaving each identity keeps at most one link exactly when no other login saves a link of it between the look-up and the save of one of its first logins |
| LoginOverlaps.OneLinkIff | packages/broker/src/account-linking-service.ts:54-64 | at every moment of every interleaving each identity has at most one link exactly when every new link so far was saved while its identity had none |
| LoginOverlaps.SecondLinkIff | packages/broker/src/account-linking-service.ts:12-27 | a login saves a second link for its identity exactly when another login saved one after this one had looked the identity up and before it saved its own |
| LoginOverlaps.LinkedUserNeverMissing | packages/broker/src/account-linking-service.ts:14-19 | in every interleaving, local logins among them, no login finds its linked account missing |
| LoginOverlaps.DoubleLinkReachable | packages/broker/src/account-linking-service.ts:12-52 | for any identity not known yet some interleaving ends with two successful logins, two accounts, and the identity linked to both |
| LoginOverlaps.IdentityIsLinkedTwice | packages/broker/src/account-linking-service.ts:12-52 | the same with every value given, from an empty state |
| LoginOverlaps.AloneIsResolve | packages/broker/src/account-linking-service.ts:12-64 | the store operations of a login, run without interruption, do what it does as one step |
| AccountLinking.BrokerAccountLinkingService.Resolve | packages/broker/src/account-linking-service.ts:12-52 | linked identity, known address, or new account, in that order; state and result are those of the specification the runs use |
| AccountLinking.BrokerAccountLinkingService.Link | packages/broker/src/account-linking-service.ts:54-64 | an identity without a link is found with this account afterwards; no other link and no other table changes |
| Completeness.ExchangeInRunIff | packages/oidc/src/dev-token-issuer.ts:36-68 | over any run a code issued at one step is exchanged at a later one exactly when its authenticated client presents it as issued, within 60 seconds, and no step in between exchanged it; the tokens then carry the authorized scopes |
| Completeness.RefreshInRunIff | packages/oidc/src/dev-token-issuer.ts:70-124 | over any run the refresh token that either grant returned is accepted later exactly from its own authenticated client, within 30 days, if no step in between presented a token of its family, authenticated and in time |
| Completeness.RefreshSucceedsIffTail | packages/oidc/src/dev-token-issuer.ts:70-124 | in any state of a run a refresh succeeds exactly when its authenticated client presents, in time, the live tail of a family of its own |
| Completeness.OverwrittenNeverReturned | packages/oidc/src/dev-token-issuer.ts:112-123 | over any run no response ever carries the secret of the row that a refresh stores in a fresh family |
| Completeness.SessionInRunIff | packages/gateway/src/runtime.ts:180-193 | over any run, whatever else happens, the session of a login is accepted, with its user and the roles then assigned, exactly until eight hours have passed or it was logged out |
| Completeness.CreatedClientAuthenticates | packages/admin/src/file-admin-service.ts:153-195 | a created client is accepted at the token endpoint exactly with the secret handed out (confidential) or without any (public) |
| Completeness.CreatedClientAuthorizedIff | packages/oidc/src/authorization-service.ts:14-36 | a created client is authorized exactly for its redirect URIs and for `openid` plus its scopes |
| Completeness.CreatedPolicyLists | packages/admin/src/file-admin-service.ts:215-225 | a created policy lists a method in whatever case it was given and exactly the non-blank trimmed roles |

## Left out

- TokenRuns.FamiliesAreChains: for requests that do not overlap; overlapping refreshes can fork a family, see `Overlaps.OverlapForksFamily` and `Overlaps.OneLiveRowIff`.
- TokenRuns.ReuseIsFinal: for requests that do not overlap, see `Overlaps.DeadForeverIff`, and for unexpired tokens presented by their own client, because `find` hides expired rows.
- TokenRuns.CodesAreSingleUse: for requests that do not overlap, see `Overlaps.ExchangeGoesThroughIff`.
- Interleavings.Provenance: the fine steps treat the reads of a client, a code or a token as atomic with the pure checks that follow them; the signed token enters a step as an input that some key signed for the step's grant and token id.
- LockProtocol.Linearizable: for one store instance; API and gateway sharing one `state.json` are not covered, and neither is an updater that awaits its own store. File systems appear as one-step replace or failure; the document is a map of opaque properties because defaults are merged at top level only.
- Acceptance.ChecksAgree: JSON numbers are integers, as in the tokens that PubAuth issues.
- Gateway.DecisionMeaning: one snapshot serves both of the request's reads of the state file; the host that forwarding resolves from the path and the upstream URL, the query and the body are not part of this model; priorities are integers.
- PathPattern.IdempotentIff: paths are sequences of Unicode scalar values, so lone surrogates do not occur.
- Catalog.CatalogIntegrity: commands do not overlap; empty slugs are excluded here and treated by `Catalog.RunKeepsIff`.
- Overview.OutsideEditsUnseen: about the filter on a given overview; the cut of the audit list before it is `Overview.OutsideEventsUnseenIff`.
- AccountLinking.LinksAreStable: logins do not overlap; for overlapping logins see `LoginOverlaps.OneLinkUnlessOverlap`.
- Token issuer without its optional parts: modelled with the client repository, signer, claim resolver and stores that the API wires in (`apps/api/src/routes.ts:94-135`).
- The `default-workspace` fallback for code and refresh rows of older files that lack a workspace.
- Role creation and role assignment: ids come from normalised names while duplicates are sought by raw names, so nothing is append-only there.
- Access-token revocation and the plain `FileAccessTokenRepository`, which nothing wires in; broker state rows.
- Mongo repositories, the Redis session repository, Redis key prefixes and connection caches: the query engines are not visible.
- RSA, scrypt, SHA-256, PEM and JWK conversion, random generation, JSON text: assumptions of `Jwt.Sound`. Node's base64 decoder is assumed only on the canonical text that `toBase64` rebuilds.
- Audit rows written by logins and commands, logging, health routes, discovery, jobs, configuration.
- HTTP plumbing: forwarding, `fetch`, the OIDC adapter of the broker, the user interfaces.
