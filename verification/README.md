# Server-side session lifecycle, modelled in Dafny

This project models the session protocol of `tp_auth_serverside`. Login signs a
user's claims and stores the signed token in a session store. The key is the
user id plus a short identifier, and only that identifier is handed to the
client. A refresh procedure rotates the signed token behind an identifier. A
restriction store holds cooldown marks that suppress repeated rotations. A
request-time validator resolves the identifier, decodes the token, and answers
401 or 403 or returns the user's claims.

Modules, one per source file or component:

- `Wrappers`: `Option` and `Result`.
- `Config`: the settings the core reads (signing key, token lifetime, restriction window).
- `Codec`: the signed-claims codec. A token records the key that signed it in place of a signature.
- `ShortUuid`: the identifier derived from a user id (base-57 rendering of a 128-bit digest).
- `Trace`: a shared ghost journal. Both stores append their writes to it, so contracts can state the order of writes.
- `Login`: the session store. It is a per-user hash with a TTL on each field: `set_token` and `get_token`.
- `Restriction`: the restriction store. It holds the keys `user_id + "__" + token` with a TTL: `set_restrict_refresh` and `is_refresh_restricted`.
- `RefreshHandling`: `RefreshHandler.RefreshToken` and the pure function `Refresh` that specifies it.
- `Authentication`: `AuthenticationHandler.authenticate` and the pure function `Issue` that specifies it.
- `Validation`: `AuthValidator.__call__`, `_trigger_refresh`, the 401/403 decision and the scope loop.

Time is an integer number of seconds, `now`, passed to every operation. A field
or key with expiry time `e` exists while `now < e`. Each store-changing method
is stated against a pure function of the old store contents. The lemmas are
proved about those functions.

The validator awaits the refresh call inside its own flow
(`src/tp_auth_serverside/auth/auth_validator.py:53-54`), so the call is not
detached. The refresh is triggered before the scope check, so a request that
ends in 403 still triggers one.

## Model

| member | source | states |
|---|---|---|
| `Codec.Decode` | src/tp_auth_serverside/auth/auth_validator.py:48 | a string that is not a token gives InvalidToken; a token signed with another key gives InvalidSignature before its expiry is looked at; a token whose expiry time is at or before `now` gives ExpiredSignature; otherwise the token's claims |
| `Codec.Encode` | src/tp_auth_serverside/core/handler/refresh_handler.py:21-22 | the encoded token is never empty; under the signing key it decodes back to exactly the encoded claims until its lifetime (`ttl * 60` s) ends; after that it fails as an expired signature; under any other key it fails as an invalid signature |
| `ShortUuid.IntToString` | src/tp_auth_serverside/db/memorydb/login.py:8 | the rendering `int_to_string` makes of the digest: the base-57 digits of the number, most significant first, left-padded with the alphabet's first character up to the padding length; every character is in the alphabet |
| `ShortUuid.DeriveId` | src/tp_auth_serverside/db/memorydb/login.py:8 | the identifier derived from a user id is a function of the user id alone, at least 22 characters long and free of underscores |
| `Login.ChooseId` | src/tp_auth_serverside/db/memorydb/login.py:8 | a supplied non-empty identifier is used verbatim; a missing or empty one is replaced by the one derived from the user id; the result is never empty |
| `Login.PutToken` | src/tp_auth_serverside/db/memorydb/login.py:7-11 | `set_token` returns the chosen identifier; that field holds the token with `expire` equal to the minutes given and expires exactly `expire_minutes * 60` s later; every other field of every hash is unchanged |
| `Login.LoginDb.SetToken` | src/tp_auth_serverside/db/memorydb/login.py:7-11 | the new store is `PutToken` of the old one; the journal gains the HSET of the field and then its HEXPIRE, in that order |
| `Login.LoginDb.GetToken` | src/tp_auth_serverside/db/memorydb/login.py:14-18 | returns the token of the live record and `None` when the field is missing or expired; it changes nothing |
| `Login.SetThenGet` | src/tp_auth_serverside/db/memorydb/login.py:9-18 | after `set_token`, `get_token` on the returned identifier yields the token until the TTL ends, and `None` from then on |
| `Login.SetTokenFrame` | src/tp_auth_serverside/db/memorydb/login.py:9-10 | `set_token` leaves every other session of the user, and every other user, reading exactly as before |
| `Login.LastWriteWins` | src/tp_auth_serverside/db/memorydb/login.py:9-10 | two `set_token` calls on the same field leave the store as the second alone would: its token and its TTL |
| `Login.PutTokenNamesFields` | src/tp_auth_serverside/db/memorydb/login.py:8-9 | `set_token` never creates a field named by the empty string |
| `Restriction.MarkRestricted` | src/tp_auth_serverside/db/memorydb/refresh.py:5-6 | after marking, the pair is restricted for exactly `refresh_restrict_minutes * 60` s and not after; every other key is unchanged |
| `Restriction.RestrictDb.SetRestrictRefresh` | src/tp_auth_serverside/db/memorydb/refresh.py:5-6 | the new store is `MarkRestricted` of the old one; the journal gains the one SET of the composite key with the window in seconds |
| `Restriction.RestrictDb.IsRefreshRestricted` | src/tp_auth_serverside/db/memorydb/refresh.py:9-10 | answers whether the composite key `user_id + "__" + token` exists unexpired; it changes nothing |
| `Restriction.MarkTwice` | src/tp_auth_serverside/db/memorydb/refresh.py:6 | marking twice equals one mark at the later time: membership is idempotent and only the TTL restarts |
| `Restriction.KeyCollision` | src/tp_auth_serverside/db/memorydb/refresh.py:6 | the key encoding is not injective: `("a__b", "c")` and `("a", "b__c")` share a key |
| `Restriction.CollidingPairRestricted` | src/tp_auth_serverside/db/memorydb/refresh.py:9-10 | for any two pairs with equal composite keys, marking the first restricts the second for the whole window |
| `Restriction.KeyInjective` | src/tp_auth_serverside/db/memorydb/refresh.py:6 | on identifiers without an underscore, which includes every derived identifier, equal keys imply equal user ids and equal identifiers |
| `RefreshHandling.RefreshHandler.RefreshToken` | src/tp_auth_serverside/core/handler/refresh_handler.py:11-27 | acknowledges with no value on every path; the new stores are `Refresh` of the old ones; the journal gains nothing on an early return, and on rotation it gains the session HSET, its HEXPIRE and then the restriction SET |
| `RefreshHandling.EarlyReturns` | src/tp_auth_serverside/core/handler/refresh_handler.py:14-26 | if the pair is restricted, if no token is stored (or it is empty), or if the token fails to decode, neither store changes and nothing is written |
| `RefreshHandling.RotationEffect` | src/tp_auth_serverside/core/handler/refresh_handler.py:21-24 | a rotation rewrites only the pair's field, under the same identifier. The new token re-signs the decoded claims with a fresh TTL and decodes to those claims for its whole lifetime. The pair is restricted for the window. All other fields and keys are unchanged |
| `RefreshHandling.RefreshIdempotent` | src/tp_auth_serverside/core/handler/refresh_handler.py:14-24 | a second refresh right after a first changes nothing, because the first one left the pair marked |
| `RefreshHandling.RacingRotations` | src/tp_auth_serverside/core/handler/refresh_handler.py:23-24 | two rotations that both passed the checks leave the single state the later one alone would leave |
| `RefreshHandling.RefreshNamesFields` | src/tp_auth_serverside/core/handler/refresh_handler.py:23 | a refresh never creates a field named by the empty string |
| `Authentication.AuthenticationHandler.Authenticate` | src/tp_auth_serverside/core/handler/authentication_handler.py:10-17 | the new stores and the returned identifier are `Issue` of the old stores; the journal gains the session HSET, its HEXPIRE and then the restriction SET; the cookies `user_id` and `access_token` are set to the user id and to the returned identifier |
| `Authentication.IssuedSession` | src/tp_auth_serverside/core/handler/authentication_handler.py:12-14 | login returns the identifier derived from the user id; under it `get_token` yields the encoded payload, which decodes to the payload for the token lifetime; the pair is restricted for the window |
| `Authentication.LoginThenRefresh` | src/tp_auth_serverside/core/handler/authentication_handler.py:14 | a refresh of the issued pair within the restriction window changes neither store and writes nothing |
| `Authentication.RepeatedLogin` | src/tp_auth_serverside/core/handler/authentication_handler.py:13 | two logins of one user return the same identifier, and the stores end as after the second login alone |
| `Authentication.IssueNamesFields` | src/tp_auth_serverside/core/handler/authentication_handler.py:13 | login never creates a field named by the empty string |
| `Validation.Challenge` | src/tp_auth_serverside/auth/auth_validator.py:35-38 | the `WWW-Authenticate` value is `Bearer` exactly when no scope is required, and otherwise `Bearer scope=` followed by the space-joined required scopes |
| `Validation.Decide` | src/tp_auth_serverside/auth/auth_validator.py:44-64 | a missing or empty token, a decode failure or a token type other than `access` gives 401; a token that passes those checks gives 403 exactly when a required scope is missing, and otherwise the token's claims; both errors carry the challenge |
| `Validation.ScopesGranted` | src/tp_auth_serverside/auth/auth_validator.py:57-63 | the scope loop answers true exactly when every required scope is among the token's scopes |
| `Validation.AuthValidator.TriggerRefresh` | src/tp_auth_serverside/auth/auth_validator.py:19-26 | a delivered call has exactly the refresh procedure's effect on the stores and journals the refresh's writes; a failed call is swallowed, changes nothing and writes nothing |
| `Validation.AuthValidator.Call` | src/tp_auth_serverside/auth/auth_validator.py:28-64 | the outcome is `Decide` on the token stored when the call starts, whatever the refresh does. A refresh happens exactly when `refresh` is set, the call is delivered and the 401 checks passed, so a 403 request still refreshes; the journal gains exactly that refresh's writes, and nothing otherwise |
| `Validation.UnauthenticatedIgnoresScopes` | src/tp_auth_serverside/auth/auth_validator.py:44-63 | whether a request gets a 401 does not depend on the required scopes: the 401 checks come before the 403 check |
| `Validation.NoScopesNeverForbidden` | src/tp_auth_serverside/auth/auth_validator.py:57-63 | a request that requires no scope never gets a 403 |
| `Validation.GrantedIsSubset` | src/tp_auth_serverside/auth/auth_validator.py:57-58 | the scope check holds exactly when the set of required scopes is a subset of the token's scopes |
| `Validation.ValidateAfterLogin` | src/tp_auth_serverside/auth/auth_validator.py:45-64 | after login with an access-type payload, requests succeed or get 403 according to the payload's scopes until the token lifetime ends, and get 401 from then on |
| `Validation.ReadButNotWrite` | src/tp_auth_serverside/auth/auth_validator.py:57-64 | after login of `u1` with scope `read`, requiring `read` is authorized and requiring `write` is a 403 with challenge `Bearer scope=write` |
| `Validation.RefreshKeepsDecision` | src/tp_auth_serverside/auth/auth_validator.py:45-54 | after a rotation of an unrestricted, valid pair, a request gets the same answer from the rotated token for its whole fresh lifetime |

## Left out

- The JWT utility is not part of this model. Signing is not modelled: a token carries the key that signed it, and decoding checks the key and then the expiry. The claims keep only the user id, the scopes and the token type. The codec's lifetime is assumed to be the configured `expiry`.
- ShortUuid.DeriveId: the UUIDv5 digest (SHA-1 over a namespace chosen by the name's prefix) is replaced by a stand-in hash into the 128-bit range. The contract states at least 22 characters, not exactly 22.
- TTL eviction is not modelled: reads compare the expiry time with `now`. A TTL of zero or less makes a session field gone at once. The restriction window must be positive, because the store rejects a SET with a non-positive expiry.
- Store and transport failures (exceptions raised by the key-value stores, a partial failure inside the refresh's `try` block) are not modelled. The only failure kept is a refresh call that does not reach the service (`delivered` false), which is swallowed.
- Serialisation of the `{token, expire}` record is not modelled. The source passes a dict to `hset` (login.py:9) and calls `.get("token")` on what `hget` returns (login.py:15-17); a plain redis-py client rejects dict values and returns strings, so the model assumes a client that serialises the record, which the connector (not part of this model) is taken to do.
- Validation.AuthValidator.Valid: requires the validator's signing key to equal the refresh service's. The source's `AuthValidator` accepts any codec (auth_validator.py:16-17) while `RefreshHandler` always builds its own default one (refresh_handler.py:19); the only instance in the source uses the default (auth_validator.py:67), so a validator with a different codec is not modelled.
- The `UserInfoSchema` validation of a decoded payload is not modelled. A payload that does not fit the schema raises an error the validator does not catch.
- `async`/`await`, `asyncio.run` and the gRPC channel become sequential calls, and every step of one call happens at the same `now`. The race between concurrent refreshes appears only as `RacingRotations`.
- Cookie attributes (`httponly`, `secure`, `samesite`) and the cookie-reading scheme in `custom_auth_scheme.py` are not modelled.
- Application assembly, routes, CORS, health checks and service start-up (`fastapi_configurer.py`), connection set-up (`db/memorydb/__init__.py`) and the package's re-exports are not modelled.
- Logout (deleting a session) does not appear in the modelled source files and is not part of this model.
