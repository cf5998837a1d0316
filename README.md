# tigerbay-js: token cache and passenger helper, as a verified Dafny model

tigerbay-js is a typed TypeScript client for the TigerBay travel-reservation REST API.
Nearly all of it is type declarations and one-line HTTP calls. This project models the two parts
that hold real logic, and proves what they promise:

- **The bearer-token cache** (`Authentication` in `src/auth.ts`). It is a request interceptor
  that owns one private slot, a token and its expiry. For each request it either reuses the cached
  token or refreshes it: it asks the credentials provider, performs one token exchange and stores
  the new token. Then it writes the `Authorization: Bearer …` header.
- **The credentials providers** `ConstantCredentials` and `EnvCredentials` (`src/auth.ts`).
- **The auth-URL fallback** of the client configuration (`src/client.ts`, one line).
- **The passenger resource helper** `PassengerAPI` (`src/models/passengers.ts`). It covers the
  passenger's resource path and the read-merge-write update of the passenger's APIS record.

Files and modules:

- `wrappers.dfy`, module `Wrappers`: `Option` and `Result`. A `Result` stands for a promise that
  resolves or rejects.
- `credentials.dfy`, module `Credentials`: the client credentials and the two provider kinds. The
  process environment is modelled as a map from variable name to value.
- `token_cache.dfy`, module `TokenCache`: the pure specification `Step` of one interception, runs
  of many interceptions, and the class `Authenticator` whose `Intercept` method is proved to follow
  `Step`.
- `decimal.dfy`, module `Decimal`: how a template literal renders an integer, and its inverse.
- `passengers.dfy`, module `Passengers`: the path, the merge, and the class `PassengerApi`.

There is no I/O in the model. Several things become parameters:

- the two clock reads of an interception, in milliseconds: `now` for the freshness check and
  `refreshedAt` for computing the expiry;
- the provider's answer and the token endpoint's answer;
- the answers to the passenger GET and PUT.

Each operation returns the external calls it issued, in order. This is how "no exchange on a hit",
"exactly one exchange per miss" and "one read before one write" are stated.

The interceptor changes the request in place. The request is an `InterceptedRequest` object, and
`Intercept` may modify only its `headers` field. So every other field of the request is unchanged.

Where the code and its documentation disagree, the model follows the code:

- `updateApis` builds its payload as `{ ...updates, ...existing }`. Fields the server already holds
  therefore override the caller's updates. Its doc comment suggests that updates win unless they are
  null. `Passengers.Merge` and `Passengers.MergeKeepsServerRecord` state what the code does: an
  update to a field the server already holds is dropped.
- Freshness is a strict comparison of expiry and `now`, with no safety margin. A token is never
  refreshed early.
- The environment provider also fails when a variable is set to the empty string, not only when it
  is missing.

## Model

| member | source | states |
|---|---|---|
| `Credentials.ConstantYieldsCredentials` | src/auth.ts:89-95 | Invoking the constant provider yields exactly its credentials, whatever the environment holds. |
| `Credentials.ReadEnv` | src/auth.ts:103-124 | Success happens exactly when `{prefix}_CLIENT_ID` and `{prefix}_CLIENT_SECRET` are both set and non-empty, and it yields their values. A missing or empty id fails with `Client ID not set in {prefix}_CLIENT_ID`, and this is checked before the secret. Otherwise a missing or empty secret fails with `Client Secret not set in {prefix}_CLIENT_SECRET`. |
| `Credentials.MessageNamesTheMissingVariable` | src/auth.ts:105-114 | When the environment provider fails, its message is the client-id message exactly when the id is missing or empty, and the client-secret message exactly when the id is set but the secret is missing or empty. |
| `Credentials.EnvReadsOnlyItsVariables` | src/auth.ts:103-111 | The provider re-reads the environment on each call and depends on nothing but its two variables, so a credential rotation between calls is seen by the next call. |
| `Credentials.DefaultPrefixExample` | src/auth.ts:102-122 | With the default prefix, `TB_CLIENT_ID=foo` and `TB_CLIENT_SECRET=bar` yield the credentials `foo`/`bar`. |
| `TokenCache.AuthBaseUrl` | src/client.ts:40 | Chooses the configured auth URL when it is set and non-empty, and the API base URL otherwise. |
| `TokenCache.NewAuthenticator` | src/client.ts:40-42 | The interceptor the client installs is a fresh authenticator with an empty cache, bound to the chosen auth URL and the User-Agent string. |
| `TokenCache.ExchangeGoesToConfiguredUrl` | src/client.ts:40-42 | On a cache miss with credentials, an authenticator built from a client configuration posts its one token exchange to the configured auth URL when set and non-empty, else to the base URL, followed by `/security/users/authenticate`. |
| `TokenCache.ExchangeRequestShape` | src/auth.ts:43-56 | The exchange is posted to `authUrl + '/security/users/authenticate'`. Its form fields are exactly `client_id`, `client_secret` and `grant_type`, in that order. A form decoder reads back the provider's id and secret and `client_credentials` from them. Its headers are exactly `User-Agent` and `Content-Type: application/x-www-form-urlencoded`. |
| `TokenCache.Step` | src/auth.ts:30-63 | Only the `Authorization` header is written, and a missing header collection is created empty. On a hit (non-empty token, expiry strictly after now) there are no external calls, the state is unchanged and the header is `Bearer <token>`. On a miss the provider is called first. A provider failure issues no exchange and rejects with a credentials error. Otherwise exactly one exchange, built from the provider's credentials, is issued. A failed exchange leaves the cache and the headers as they were. A successful one stores `access_token` with expiry `refreshedAt + expires_in*1000` and sends `Bearer <access_token>`. No token is attached without an exchange unless it was fresh. |
| `TokenCache.ReuseWhileFresh` | src/auth.ts:35-39 | Every request in a sequence made before the expiry of a non-empty cached token is sent with that token. None of them issues an exchange, and the cache keeps its state throughout. |
| `TokenCache.OneExchangePerWindow` | src/auth.ts:35-61 | From any state in which a request misses the cache (the first request, or one at or after the expiry), if the refresh gets a non-empty token, a run of any length whose later requests come before that token's expiry issues exactly one exchange. In every later step the cache holds the new token and the request carries `Bearer <new token>`. |
| `TokenCache.OneExchangeWithinWindow` | src/auth.ts:27-61 | From the initial empty state the first request refreshes. If it gets a non-empty token, a run of any length whose later requests come before that token's expiry issues exactly one exchange. Every request in the run carries that token. |
| `TokenCache.RefreshOnExpiry` | src/auth.ts:35-61 | A request at or after the stored expiry whose provider and exchange succeed issues exactly one exchange. Its token replaces the old one in the cache and in the header. |
| `TokenCache.EmptyTokenNeverReused` | src/auth.ts:35 | A cached empty-string token is never reused, whatever its expiry: the provider is asked again. |
| `TokenCache.EnvProviderFailureShortCircuits` | src/auth.ts:41-56 | With the environment provider and its client id unset, a cache miss is rejected with the message naming `{prefix}_CLIENT_ID`. No exchange is issued and the cache is untouched. |
| `TokenCache.Authenticator.constructor` | src/auth.ts:25-28 | A new authenticator starts with neither token nor expiry, for the given auth URL. |
| `TokenCache.Authenticator.Intercept` | src/auth.ts:30-63 | The new token and expiry fields, the request's new header collection, the result and the issued calls are exactly what `Step` gives for the old state. No other field of the request can change. |
| `Decimal.NoLeadingZero` | src/models/passengers.ts:40 | A rendered natural number of two or more digits never starts with `0`. |
| `Decimal.IntStringRoundTrip` | src/models/passengers.ts:40 | Rendering an integer in decimal, as a template literal does for safe integers (magnitude at most 2^53), then parsing it back, yields the same integer. |
| `Passengers.PathRoundTrip` | src/models/passengers.ts:39-41 | `/reservations/{booking}/passengers/{id}` can be parsed back into exactly the booking id and passenger id it was built from. |
| `Passengers.PathInjective` | src/models/passengers.ts:39-41 | Two passenger paths are equal only when both ids are equal. |
| `Passengers.PassengerApi.constructor` | src/models/passengers.ts:9-13 | The handle holds the booking and passenger ids it was given. They are constants and never change afterwards. |
| `Passengers.PassengerApi.Path` | src/models/passengers.ts:39-41 | The path starts with `/reservations/` and parses back to the handle's own booking and passenger ids. |
| `Passengers.Merge` | src/models/passengers.ts:31 | The payload's keys are the union of the keys of the updates and of the existing record. Every key the existing record holds keeps the existing value. Every key only in the updates carries the update's value. |
| `Passengers.MergeKeepsServerRecord` | src/models/passengers.ts:24-31 | When the server record already holds every updated field, the payload is exactly the record that was read, and the updates have no effect. |
| `Passengers.PassengerApi.GetApis` | src/models/passengers.ts:15-17 | One GET of `{path}/Apis` is issued, and its response is returned. |
| `Passengers.PassengerApi.UpdateApis` | src/models/passengers.ts:29-34 | First exactly one read of `{path}/Apis`. If it fails, the failure is returned and nothing is written. Otherwise exactly one write of the merged payload to `{path}/apis` follows, and its outcome is the result. |

## Left out

- Resource API groups (`src/models/reservations.ts`, `tours.ts`, `payments.ts`, `cache.ts`, `customers.ts`, `tasks.ts`, `agents.ts`, `content.ts`, `setup.ts`, `notes.ts`): each method is one HTTP call with a templated path and holds no logic to verify.
- `addComponent` swallowing its errors (`src/models/reservations.ts`): it is a logging wrapper around I/O.
- Type declarations, including `src/models/common.ts`: they enforce no invariants.
- Query-string encoding goes through the `qs` library, whose behaviour is not shown.
- Form encoding: `URLSearchParams` is not modelled. The exchange body is modelled as the ordered list of name/value pairs appended to it.
- Client wiring (`src/client.ts`): axios instance defaults, interceptor registration and ejection, and the health check are transport set-up. Only the auth-URL choice of line 40 and the authenticator built from it at line 42 (`NewAuthenticator`) are modelled.
- Note self-link resolution: src/client.ts:6 imports `NoteManager`, but src/models/notes.ts defines no such class (only an empty `Api`, notes.ts:17-19), so there is nothing to model.
- `PassengerAPI.contacts`: it returns the raw response rather than its body, which is an I/O detail.
- `PassengerAPI.updateApis`: values in `updates` are strings. A `null` or `undefined` value, which the spread would copy as a key, is not modelled. The record read back from the server is likewise assumed to hold a string in every field, as `PassengerAPIS` declares (src/models/passengers.ts:45-55); a field the server returns as JSON `null` would, in the source, overwrite the caller's update with `null`.
- Concurrency: the cache race between overlapping interceptions is not modelled, because interceptions are modelled one after the other. In that race both can refresh, and the last writer wins.
- Time: the wall clock is an input in integer milliseconds, and `expires_in` is a natural number of seconds. JavaScript's floating-point `expires_in`, `NaN`, and the range limit of `Date` values are not modelled.
- `USER_AGENT` interpolates the package version from `./version` (src/user_agent.ts:1, 8), so the User-Agent string is a parameter of the authenticator.
- Credentials providers in general: a caller may pass any async function as the provider. Its outcome is therefore an input of each interception, and the two built-in providers are modelled separately. `EnvProviderFailureShortCircuits` ties the two together.
- Token response: an absent `access_token`, and the ignored `token_type`, are not modelled.
- Headers: axios header names are case-insensitive. The model keys the collection by exact name, and only `Authorization` is written.
- `Decimal.IntStringRoundTrip`: ids are assumed to be integers rendered in plain, exact decimal, which matches JavaScript only for safe integers (magnitude at most 2^53). Above 2^53 JavaScript prints the shortest digits that round back to the same double (`${2**60}` is `1152921504606847000`), whereas `IntString` prints the exact digits; from 1e21 JavaScript switches to exponent notation, and non-integer numbers get a fraction part. None of these is modelled, so `Passengers.PassengerPath` matches the source's path only for safe-integer ids.
