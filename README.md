# GitHub App callback, webhook ingress and Share record — a Dafny model

This project models two small pieces of an Outline server.

1. The GitHub App routes in `plugins/github/server/api/github.ts`:
   - The `github.callback` route ends the OAuth 2.0 authorization-code redirect. A provider `error` is the error response of section 4.1.2.1 of RFC 6749.
   - Its fixed precedence: a non-empty provider error, then `setup_action=request`, then an installation lookup, then two linked record writes.
   - The `github.webhooks` route extracts the signature from the `x-hub-signature-256` header, schedules one task and answers 202.
2. The Share record in `server/models/Share.ts`:
   - the `checkDomain` before-update hook;
   - the `isRevoked` and `canonicalUrl` getters;
   - `revoke` and the save it triggers;
   - the column defaults and validators.

Files:
- `wrappers.dfy`: `Option` and `Outcome`.
- `js_strings.dfy`: JavaScript `split` with one separator character, with its inverse `Join`, and `toLowerCase`.
- `github_callback.dfy`: the callback as the pure decision function `Handle` and as the imperative `CredentialStore.Callback`. The method appends `Handle`'s rows to the store and keeps its invariant: every integration row points at exactly one earlier authentication row of the same user and team.
- `github_webhooks.dfy`: the signature extraction and the `TaskQueue` class with the webhook route.
- `share.dfy`: the `Share` class. Its fields are updated in place. The clock and the set of domains owned by teams are parameters.

Decisions worth knowing:
- The user is always taken as authenticated. The authentication middleware is not part of this model, and the handler dereferences `user.id` on the success path.
- Matching is on `Some(id)`, so a missing `installation_id` never matches a listed installation.
- `if (error)` treats the empty string as "no error", so an empty `error` falls through to the later checks.
- `revoke()` ends in `save()` of a stored share. That save validates only the columns it changes (`revokedAt` and `revokedById`, which have no validators). Then it runs the `@BeforeUpdate` hook `checkDomain`. It validates the domain again only if the hook changed it. Writing a changed `domain` can then hit the `@Unique` constraint on that column. So `Revoke` may lowercase the domain, and it reports a refused save.
- Scope strings are meant to be unique per authentication. The code guarantees it only when permission names are distinct and contain no `:` (`ScopesDistinct`).
- `state` is resolved to a team by the `apexAuthRedirect` middleware (github.ts:24-32), which is left out. Inside the handler it reaches only the code exchange (`StateOnlyReachesExchange`).

## Model

| member | source | states |
|---|---|---|
| `GitHubCallback.Handle` | plugins/github/server/api/github.ts:34-100 | Writes either nothing or exactly two rows. Rows are written exactly when the redirect is the success URL. They are an authentication row and then an integration row backed by it (same id, user, team). No code exchange means no writes. |
| `GitHubCallback.ErrorRedirects` | plugins/github/server/api/github.ts:45-48 | `HasError` is the `if (error)` test: present and not the empty string. A non-empty provider error redirects to the error URL carrying that error, whatever the other parameters. No exchange, no writes. |
| `GitHubCallback.InstallRequestRedirects` | plugins/github/server/api/github.ts:45-53 | With no error, `setup_action=request` redirects to the install-request URL. No exchange, no writes. |
| `GitHubCallback.FindInstallation` | plugins/github/server/api/github.ts:57-60 | Returns the position of the first listed installation whose id is the query's. Returns none exactly when no installation matches. |
| `GitHubCallback.UnmatchedInstallationFails` | plugins/github/server/api/github.ts:55-64 | When no listed installation has the query's id, the exchange happens, the redirect is `errorUrl("unauthenticated")` and nothing is written. |
| `GitHubCallback.MissingInstallationIdFails` | plugins/github/server/api/github.ts:57-64 | An absent `installation_id` always gives the unauthenticated redirect and no writes. |
| `GitHubCallback.Scopes` | plugins/github/server/api/github.ts:66-68 | One scope per permission entry, in entry order. Each scope is `name:permission` and contains the separator. |
| `GitHubCallback.ScopeInjective` | plugins/github/server/api/github.ts:66-68 | A scope string determines its name and permission when the name has no `:`. |
| `GitHubCallback.ScopesDistinct` | plugins/github/server/api/github.ts:66-68 | Distinct names without `:` give pairwise distinct scopes, as many as there are entries. |
| `GitHubCallback.TwoPermissionScopes` | plugins/github/server/api/github.ts:66-68 | The permissions `issues: write` and `contents: read` give the scopes `issues:write` and `contents:read`. |
| `GitHubCallback.SuccessWritesLinkedPair` | plugins/github/server/api/github.ts:70-99 | On success the first matching installation is used, and the rows are those of `SuccessWrites`. The stored account (`Summary`) is the installation account's id, login and avatar URL, or all absent when there is no account. An authentication row (GitHub, the user's id and team, its scopes) comes first. Then an Embed integration of service GitHub, pointing at that row, with the user's id and team and the query's installation id. The redirect is the success URL. |
| `GitHubCallback.StateOnlyReachesExchange` | plugins/github/server/api/github.ts:55-83 | Changing `state` changes only the exchange request. The redirect and the written rows (team from the user) stay the same. |
| `GitHubCallback.BackingUnique` | plugins/github/server/api/github.ts:70-84 | In a store with strictly increasing ids, an integration is backed by at most one authentication row. |
| `GitHubCallback.AppendKeepsBacked` | plugins/github/server/api/github.ts:70-98 | Appending an authentication row, or an integration row backed by an earlier row, keeps every integration backed. |
| `GitHubCallback.CredentialStore.CreateAuthentication` | plugins/github/server/api/github.ts:70-78 | Appends exactly one authentication row with a fresh id and the given fields. The store stays valid. |
| `GitHubCallback.CredentialStore.CreateIntegration` | plugins/github/server/api/github.ts:79-98 | Appends exactly one integration row with a fresh id. It needs a backing authentication row. The store stays valid. |
| `GitHubCallback.CredentialStore.Callback` | plugins/github/server/api/github.ts:34-100 | The handler's early-return steps give `Handle`'s redirect and exchange. The store gains exactly `Handle`'s rows, in order, and stays valid. |
| `GitHubWebhooks.HeaderText` | plugins/github/server/api/github.ts:108-112 | A missing header gives nothing. A string header gives itself. An array header gives its first element, or nothing when the array is empty. |
| `GitHubWebhooks.SignatureFromHeader` | plugins/github/server/api/github.ts:107-114 | With no header text there is no signature. Given a header text, there is a signature exactly when the text contains `=`. A signature never contains `=`. |
| `GitHubWebhooks.SecondPieceExtracted` | plugins/github/server/api/github.ts:113 | With several `=`, the signature is the piece between the first and the second: `a=d=...` yields `d`. |
| `GitHubWebhooks.PrefixedDigestExtracted` | plugins/github/server/api/github.ts:113 | `<algorithm>=<digest>` yields exactly `<digest>`. |
| `GitHubWebhooks.NoSeparatorNoSignature` | plugins/github/server/api/github.ts:113 | A header text without `=` yields no signature. |
| `GitHubWebhooks.ArrayHeaderUsesFirst` | plugins/github/server/api/github.ts:110-112 | An array header gives the same signature as its first element alone. |
| `GitHubWebhooks.Sha256HeaderExample` | plugins/github/server/api/github.ts:107-114 | `sha256=deadbeef` yields `deadbeef`. |
| `GitHubWebhooks.TaskQueue.Schedule` | plugins/github/server/api/github.ts:119-122 | Appends the task when the queue is available. Otherwise it fails and appends nothing. |
| `GitHubWebhooks.TaskQueue.Receive` | plugins/github/server/api/github.ts:103-125 | A request the signature check refuses queues nothing. An accepted request queues exactly one task with its body and headers and answers 202. A scheduling failure queues nothing. The answer is 202 exactly when one task was added. |
| `JsStrings.Split` | plugins/github/server/api/github.ts:113 | `split`: at least one piece, no piece holds the separator, and joining the pieces gives back the input. |
| `JsStrings.SplitWithoutSeparator` | plugins/github/server/api/github.ts:113 | A string without the separator splits into itself alone. |
| `JsStrings.SplitSinglePiece` | plugins/github/server/api/github.ts:113 | There is exactly one piece iff the separator is absent. |
| `JsStrings.SplitFirstPiece` | plugins/github/server/api/github.ts:113 | The first piece of `p + rest` is `p` when `p` has no separator and `rest` is empty or starts with one. |
| `JsStrings.SplitFirstTwoPieces` | plugins/github/server/api/github.ts:113 | `a=d` followed by nothing or by `=...` splits into pieces starting with `a` and `d`. |
| `JsStrings.SplitAroundSeparator` | plugins/github/server/api/github.ts:113 | `p=d` with no separator in `p` or `d` splits into `[p, d]`. |
| `JsStrings.Lower` | server/models/Share.ts:111 | `toLowerCase`: same length, each character lowered in place, no upper-case ASCII letter left. |
| `JsStrings.LowerIdempotent` | server/models/Share.ts:111 | Lowering twice is the same as lowering once. |
| `Shares.NormalizeDomain` | server/models/Share.ts:107-111 | A null or empty domain is left as it is. Any other domain becomes its lowercase form: each character is lowered in place, so it keeps its length, stays non-empty and has no upper-case letters. |
| `Shares.NormalizeDomainIdempotent` | server/models/Share.ts:111 | Applying the hook's normalisation twice gives the same domain as applying it once. |
| `Shares.DomainTakenAfterNormalize` | server/models/Share.ts:111-122 | Checking the already lowercased domain gives the same verdict as checking the original. |
| `Shares.Share.constructor` | server/models/Share.ts:84-87 | A new share has `views == 0`, is not revoked, and has not been accessed. |
| `Shares.Share.IsRevoked` | server/models/Share.ts:129-131 | True exactly when `revokedAt` is set. |
| `Shares.Share.CanonicalUrl` | server/models/Share.ts:133-137 | The URL is the team URL, then `/s/`, then the slug. The slug is `urlId` when it is set and non-empty, otherwise the id. |
| `Shares.UpdateOutcome` | server/models/Share.ts:97-125 | The result of an update after the changed columns have validated. It fails with "Domain is already in use" whenever a team owns the lowered domain. Otherwise a domain the hook changed and that does not validate gives an invalid-column failure. Otherwise, when the update writes the domain (`DomainWritten`) and another share holds the lowered value, it is refused by the unique constraint. It fails only for one of these three reasons. Passing implies no team owns the domain, a domain the hook changed validates, and a written domain is held by no other share. For an already-lowercase domain the update does not change, it fails exactly when a team owns it. |
| `Shares.Share.Validates` | server/models/Share.ts:89-101 | Only the given columns are validated (`UrlIdValid`, `DomainValid`). A validated domain is at most 255 characters and a FQDN. A validated `urlId` matches the slug pattern. Either may be null. A longer domain never validates. A column set without `urlId` and `domain` always validates. |
| `Shares.Share.CheckDomain` | server/models/Share.ts:105-125 | The domain becomes its normalised form, and only the domain changes. The hook fails with "Domain is already in use" exactly when `DomainTaken` holds: the domain is non-empty and a team owns its lowercased form. A null or empty domain passes unchanged. |
| `Shares.Share.Save` | server/models/Share.ts:89-125 | The changed columns are validated first. If they fail, the save is refused and nothing changes. Otherwise the domain is normalised, and the result is `UpdateOutcome`: the hook, re-validation of a domain the hook changed, and the unique constraint. |
| `Shares.Share.Revoke` | server/models/Share.ts:169-173 | Sets `revokedAt` to the given time and `revokedById` to the revoking user, after which `IsRevoked` holds. Then it saves those two columns. An invalid stored `urlId`, or an invalid domain the hook leaves unchanged, does not stop the save. A domain the hook lowercases is validated again. The only other field that may change is the domain, normalised by the save hook. The result is `UpdateOutcome` for those two columns. |

## Left out

- The network calls `GitHub.authenticateAsUser` and `requestAppInstallations` are not modelled. The installations they return are an input. The request made is the `Exchange` value. Network failures and timeouts are not modelled.
- The `auth`, `validate`, `apexAuthRedirect` and `transaction` middlewares are not part of this model. So an anonymous callback and the resolution of `state` to a team are not modelled.
- Transaction rollback is not modelled. In the model nothing can fail between the two writes, so both-or-neither holds trivially.
- `GitHubUtils` (the URLs themselves) is not part of this model. Redirect targets are datatype values.
- The callback query schema is not part of this model. `installation_id` is taken to be a number, and `setup_action` to be one of install, update or request.
- Record ids are UUIDs in the source. Here they come from a counter in the store, which makes them fresh and increasing.
- `GitHubWebhooks.TaskQueue.Receive`: the `validateWebhook` middleware (HMAC-SHA256 and a constant-time comparison) is not part of this model. It is the `verify` parameter. The status it answers with on rejection is not stated.
- A failing `schedule` is a boolean input. Task execution, retries and the queue's durability are not modelled.
- Sequelize decorators, default scopes, scopes and associations of Share are ORM configuration and are not modelled. `team.url` is a parameter of `CanonicalUrl`.
- `Shares.Share.Validates`: `SHARE_URL_SLUG_REGEX`, `IsFQDN` and the `Length` validator are not part of this model. The first two are parameters. `Length` is taken to bound the length by 255.
- `Shares.Share.Save`: the save of a never-stored share is not modelled. That save validates every column and runs the create hooks instead.
- `Shares.Share.Save`: the unique constraint is modelled as exact membership in the set of domains other shares hold.
- `JsStrings.Lower` lowers only the ASCII letters A to Z, not the full Unicode case mapping of `toLowerCase`. The full mapping can change a string's length (`İ` lowers to two code units); the model's cannot.
- `Team.count` is a database query in the source. Here it is membership in a set of team domains, compared exactly.
- The clock in `revoke` is a parameter.
- `app/scenes/Document/components/InviteTeamMembers.tsx` and `app/models/Revision.ts` are not part of this model. They are UI and MobX wiring.
