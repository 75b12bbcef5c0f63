# angular2-auth (`ng2-auth.ts`) in Dafny

This project models the core of `ng2-auth.ts`, a small Angular 2 library. Its job is to attach a
bearer token to outgoing HTTP requests. The model covers three parts.

- **Configuration** (`configuration.dfy`, using `objects.dfy`). `new AuthConfig(options)` lays the
  caller's options over `AuthConfigDefaults` with the `objectAssign` polyfill. It then adjusts
  the result in place:
  - a non-empty header prefix gets a space appended;
  - with no prefix, `noTokenScheme` selects the empty prefix, and otherwise the prefix is
    `"Bearer "`;
  - a store-reading getter is made for a caller's own `tokenName` / `expiryDateName` when the
    caller gave no getter for it.

  The class `AuthConfig` holds the configuration object as a map from property to value. Its
  constructor is proved against the reference function `Resolve`. The lemmas beside `Resolve`
  state the promised properties.
- **Authenticated requests** (`auth_requests.dfy`). `AuthHttp` covers:
  - `setGlobalHeaders`, a loop of in-place `Headers.set` calls;
  - `mergeOptions`, `requestHelper` and `requestWithToken`;
  - `request` and the seven verb helpers.

  The `Http` transport is a function the object is given, and a ghost log `sent` records every
  request handed to the transport. The header rules are also stated on values (`ApplyEntries`,
  `OutgoingHeaders`), and every method is proved against them.
- **Expiry** (`expiry.dfy`). `AuthHelper.isTokenExpired` and `tokenNotExpired` are modelled as
  functions over a `localStorage` value (`storage.dfy`) and the current time in milliseconds.

`numbers.dfy` models `Number(...)` on what `localStorage.getItem` returns, restricted to integers:
- `null` and `""` give 0;
- an optionally negative run of decimal digits gives its value;
- anything else gives `NaN`.

`wrappers.dfy` holds `Option` and `Result`.

In these places the model follows the code as written:
- **Missing expiry date.** A missing expiry date is read by `Number(null)` as 0, so the guard
  `date == null` at ng2-auth.ts:217 is dead code. As a result, a token whose expiry date is
  missing counts as expired as soon as `now + offset * 1000 >= 0`.
- **Prefix space.** The space is appended to any non-empty prefix, so `"Bar "` becomes `"Bar  "`.
- **Global headers.** They are written only on the verb-helper path (`requestHelper` →
  `mergeOptions`). A prepared `Request` given to `request` gets only the authorization header.
- **Caller's headers mutated.** `setGlobalHeaders` writes into the caller's own `Headers` object
  when the caller passed per-call options with headers, because `RequestOptions.merge` shares
  that object. The model keeps this aliasing (`AliasedHeadersUpdated`).
- **Empty token name.** A `tokenName` given as `""` is kept as the effective `tokenName`, but the
  token getter still reads `"access_token"`.

## Model

| member | source | states |
|---|---|---|
| `Objects.Assign` | ng2-auth.ts:265-297 | a null target fails with the `TypeError` message; otherwise the result is the sources' own properties copied in argument order onto the target (`AssignAll`) |
| `Objects.AssignAllKeys` | ng2-auth.ts:278-285 | the merged object has exactly the target's keys plus every key some source owns |
| `Objects.AssignAllLastWins` | ng2-auth.ts:281-284 | a key owned by source `i` and by no later source carries source `i`'s value |
| `Objects.AssignAllUntouched` | ng2-auth.ts:278-285 | a key no source owns keeps the target's value, or stays absent |
| `Objects.AssignAllOfTwo` | ng2-auth.ts:66 | `objectAssign({}, a, b)` is `b` laid over `a` |
| `Configuration.MergeWithDefaults` | ng2-auth.ts:45-54 | the merge yields the caller's given properties over `AuthConfigDefaults`, and hence the fields the constructor keeps already hold their effective values |
| `Configuration.AuthConfig.constructor` | ng2-auth.ts:64-82 | the stored configuration object is well formed, and `getConfig()` returns `Resolve(options)` |
| `Configuration.AuthConfig.Adjust` | ng2-auth.ts:67-81 | the prefix rewrite and the getter synthesis turn the merged object into one whose typed view is `Resolve(options)` |
| `Configuration.AuthConfig.GetConfig` | ng2-auth.ts:84-86 | `getConfig()` returns the typed view of the stored object, whose prefix is empty or ends in a space (a class invariant the constructor establishes) |
| `Configuration.DefaultConfig` | ng2-auth.ts:38-54 | with no options (or `{}`) the configuration is `Authorization`, `Bearer `, `access_token`, `expires_in`, getters reading those keys, `[]`, `false` |
| `Configuration.GivenFieldsKept` | ng2-auth.ts:66 | every given name, header list and `noTokenScheme` is taken unchanged, and each one left out takes its default |
| `Configuration.PrefixCases` | ng2-auth.ts:67-73 | a non-empty prefix `p` gives `p + " "` even with `noTokenScheme`; the prefix is empty exactly when none or `""` was given and `noTokenScheme` is true; otherwise it is `"Bearer "` |
| `Configuration.PrefixEndsInSpace` | ng2-auth.ts:67-73 | the effective prefix is empty or ends in a space |
| `Configuration.PrefixSpaceDoubled` | ng2-auth.ts:68 | a given `"Bar "` becomes `"Bar  "` |
| `Configuration.TokenGetterReads` | ng2-auth.ts:75-77 | a supplied token getter is kept; otherwise the store is read under the given non-empty `tokenName`, or under `access_token` |
| `Configuration.TokenReadUnderTokenName` | ng2-auth.ts:75-77 | without a supplied getter the token is read under the effective `tokenName` unless that is empty |
| `Configuration.ExpiryDateGetterReads` | ng2-auth.ts:79-81 | the same rule for the expiry-date getter, through `Number(...)` |
| `Configuration.DefaultTokenGetterFindsStoredToken` | ng2-auth.ts:50 | the default getter returns a token stored under the default `tokenName` |
| `Configuration.CustomTokenNameGetter` | ng2-auth.ts:75-77 | `{tokenName: name}` makes the getter return what is stored under `name` |
| `Configuration.AllOptionsGiven` | ng2-auth.ts:64-82 | with every option given, the fields are taken, `"Bar"` becomes `"Bar "` and the supplied getter's token is returned |
| `Numbers.NumberOf` | ng2-auth.ts:214 | `Number(null)` and `Number("")` are 0, a run of digits is non-negative, a `-`-led string is not positive, and a string starting with neither a digit nor `-` is `NaN` |
| `Numbers.NumberOfDecimalString` | ng2-auth.ts:214 | reading back an integer stored as its decimal string gives that integer |
| `Expiry.IsTokenExpired` | ng2-auth.ts:213-223 | with nothing under `expires_in` the token is expired exactly when `now + offset * 1000 >= 0`; a `NaN` date is expired; a numeric date is expired exactly when it is at most `now + offset * 1000` |
| `Expiry.TokenNotExpired` | ng2-auth.ts:231-238 | true exactly when a token is stored under the name (default `access_token`) and the number stored under `expires_in` is later than now; with no stored expiry date (and `now >= 0`) it is never true |
| `Expiry.ExpiredIffDatePassed` | ng2-auth.ts:213-223 | with `String(d)` stored under `expires_in`, the token is expired exactly when `d <= now + offset * 1000`, a missing offset counting as 0 |
| `Expiry.MissingDateReadsAsEpoch` | ng2-auth.ts:214-222 | with no stored date, the token is expired exactly when `now + offset * 1000 >= 0` |
| `Expiry.UnreadableDateExpired` | ng2-auth.ts:222 | a stored date that reads as `NaN` is always expired |
| `Expiry.ExpiryReadsOneKey` | ng2-auth.ts:214 | only the value under the fixed key `expires_in` decides expiry |
| `Expiry.ExpiredMonotone` | ng2-auth.ts:222 | a larger offset or a later time never turns expired into not expired |
| `Expiry.NoOffsetIsZero` | ng2-auth.ts:215 | a missing offset behaves as offset 0 |
| `Expiry.TokenNotExpiredIff` | ng2-auth.ts:231-238 | `tokenNotExpired(name)` holds exactly when a token is stored under `name` (default `access_token`) and the date `d` stored under `expires_in` is later than now |
| `Expiry.NoTokenNotValid` | ng2-auth.ts:233-237 | without a stored token `tokenNotExpired` is false |
| `Expiry.StoredTokenNotExpired` | ng2-auth.ts:231-238 | a stored token with a future expiry date passes `tokenNotExpired()` |
| `AuthRequests.ApplyEntriesKeys` | ng2-auth.ts:152-156 | the header table ends with exactly its old names plus the entries' names |
| `AuthRequests.ApplyEntriesLastWins` | ng2-auth.ts:152-156 | on a name several entries carry, the last one wins |
| `AuthRequests.ApplyEntriesUntouched` | ng2-auth.ts:152-156 | a header no entry names keeps its value, or stays absent |
| `AuthRequests.AuthorizationWins` | ng2-auth.ts:142 | the authorization header is prefix plus token and overrides a same-named caller or global header |
| `AuthRequests.GlobalHeaderWins` | ng2-auth.ts:118-119 | a global header replaces the caller's header of the same name |
| `AuthRequests.CallerHeaderKept` | ng2-auth.ts:148-157 | a caller's header named by no global entry and not the authorization header goes out unchanged |
| `AuthRequests.BarPrefixHeader` | ng2-auth.ts:67-68 | prefix `"Bar"` and token `"abc"` send `Authorization: Bar abc` |
| `AuthRequests.Headers.Set` | ng2-auth.ts:155 | `set` replaces the value under a name and changes nothing else |
| `AuthRequests.Request.constructor` | ng2-auth.ts:132 | `new Request(options)` keeps the request record and takes its own fresh copy of the options' header table (empty when there is none) |
| `AuthRequests.AuthHttp.constructor` | ng2-auth.ts:104-105 | the configuration is the `AuthConfig`'s `getConfig()`, and nothing has been sent |
| `AuthRequests.AuthHttp.SetGlobalHeaders` | ng2-auth.ts:148-157 | the options' own `Headers` object, or a fresh one when they had none, ends with the entries applied in order to its old table |
| `AuthRequests.AuthHttp.MergeOptions` | ng2-auth.ts:116-125 | the global headers are written into the provided options, and the merged options carry that same header table |
| `AuthRequests.AuthHttp.RequestWithToken` | ng2-auth.ts:135-146 | no token gives `AuthHttpError("No token present or has expired")` with nothing sent or changed; a token sets the authorization header, sends the request exactly once and returns the transport's outcome |
| `AuthRequests.AuthHttp.Request` | ng2-auth.ts:159-175 | a URL is sent as a GET with the global headers; a prepared request is sent with the configured getter's token and no global headers, and the per-call options' header table is left untouched unless it is the request's own `Headers` object |
| `AuthRequests.AuthHttp.RequestHelper` | ng2-auth.ts:127-133 | the request sent carries the caller's headers, then the global headers, then the authorization header, and the caller's own header table receives the global headers |
| `AuthRequests.AuthHttp.Get` | ng2-auth.ts:177-179 | sends method GET with an empty body under the rules of `RequestHelper` |
| `AuthRequests.AuthHttp.Post` | ng2-auth.ts:181-183 | sends method POST with the given body |
| `AuthRequests.AuthHttp.Put` | ng2-auth.ts:185-187 | sends method PUT with the given body |
| `AuthRequests.AuthHttp.Delete` | ng2-auth.ts:189-191 | sends method DELETE with an empty body |
| `AuthRequests.AuthHttp.Patch` | ng2-auth.ts:193-195 | sends method PATCH with the given body |
| `AuthRequests.AuthHttp.Head` | ng2-auth.ts:197-199 | sends method HEAD with an empty body |
| `AuthRequests.AuthHttp.Options` | ng2-auth.ts:201-203 | sends method OPTIONS with an empty body |

## Left out

- Observables and Promises. A token getter yields its token directly. The `fromPromise` /
  `mergeMap` branch of `request` and the `tokenStream` / `expiryDateStream` fields are not
  modelled. An error observable is a `Failure` result.
- The Angular `Http` transport. It is a function from the request as sent to its outcome, and
  it is called once per request sent.
- `RequestOptions.merge` and `defOpts`. Per-call options are reduced to their header table. The
  sent url, method and body are those of the verb helper; url, method or body values in per-call
  options or in `defOpts` are not modelled. The merged options take the provided headers, which
  are always present after `setGlobalHeaders`.
- `Headers` case-insensitivity and multi-valued headers. A header table is a map from the name as
  written to one value.
- `setGlobalHeaders` is modelled for `RequestOptions` targets only. On a `Request` its effect is
  the same loop over a table that is always present.
- A global-header entry is modelled by its first key and that key's value; an entry object with
  no keys is not represented.
- An override property given with the value `null` or `undefined` is treated as left out.
  `objectAssign` would copy such a value.
- Symbol-keyed properties in `objectAssign` (ng2-auth.ts:287-294). Objects are maps over string
  or property-name keys.
- `Number(...)` on strings with whitespace, `+`, decimals, exponents, hex or `Infinity`: these
  read as `NaN` here. Floating-point dates are not modelled; times are integer milliseconds, and
  `now` is a parameter.
- Configurations are values fixed at construction. `getConfig()` returns the `_config` object
  itself, `AuthHttp` keeps that reference, and a synthesised getter reads `tokenName` /
  `expiryDateName` from the caller's options object each time it runs; later mutation of either
  object would change later header writes and token reads, which the model does not capture.
- `tokenNotExpired(null)`: the default parameter replaces only an omitted argument, so an explicit
  `null` would read the key `"null"`; the model's `None` is the omitted argument.
- Getters are `StoreLookup(key)` or `Custom(value)`, not closures. A custom getter is represented
  by the value it returns.
- Dependency-injection wiring: `AUTH_PROVIDERS`, `provideAuth`, `AuthModule` and `forRoot`
  (ng2-auth.ts:240-260, ng2-auth.ts:303-323). This is framework plumbing.
