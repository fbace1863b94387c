# SomaPay client request pipeline, modelled in Dafny

This project models the core of the SomaPay browser client: the request
pipeline of `src/lib/api/client.js` and the two response-shape normalisers of
`src/lib/utils/format.js`.

- **Credential store.** One in-memory token cache, backed by an optional
  durable slot (`localStorage` under `somapay:token`). `getStoredToken`
  refills an empty cache from the slot. `setStoredToken` stores `token || null`
  and writes or removes the slot. `clearStoredToken` is `setStoredToken(null)`.
  It is a class `Client.TokenStore` whose methods are proved against the pure
  transition functions `Lookup`, `AfterGet`, `AfterSet` and `AfterClear` on a
  `TokenState` value. The lemmas about the store are stated on those functions.
  When the host has no storage the slot is ignored.
- **URL builder.** `buildUrl` drops query entries whose value is strictly
  `undefined`, `null` or `''`, and keeps the others in order. It is a loop
  method proved against the recursive filter `KeptParams`.
- **Response decoder.** `parseResponseBody` gives `null` for an empty body,
  the parsed JSON when parsing succeeds, and the text itself when it fails.
  `JSON.parse`/`JSON.stringify` are an abstract `JsonCodec`.
- **Request executor.** `apiRequest` checks the token before any transport
  call; the forced token wins over the stored one. It sets the
  `Authorization` header to the raw token and sets `Content-Type` when data is
  given. A thrown `fetch` becomes one network error, 204 short-circuits to
  `null`, and a non-ok status becomes an error. On a non-ok status the token
  is cleared iff the status is 401 on an authenticated call, and the code is
  `TOKEN_EXPIRED` iff the status is 401. The transport is a recording
  `Transport` object, so "no request went out" can be stated.
- **Normalisers.** `normalizePage` and `toArray` are total functions over a
  JavaScript value type (`Js.JsValue`) that keeps `undefined` and `null`
  apart. `||`, `??`, property access and `?.length` are modelled explicitly
  as `Js.Or`, `Js.Coalesce`, `Js.Get` and `Js.OptionalLength`.

Files: `wrappers.dfy` (Option, Result), `js.dfy` (JavaScript values and
operators), `client.dfy` (module `Client`), `format.dfy` (module `Format`).

Behaviour a reader might not expect, modelled as the code has it:

- `buildUrl` runs before the token check (`client.js:77` before `client.js:80`).
- `Content-Type` is set whenever `data !== undefined`, so a `null` body is
  sent as `"null"`.
- The totals default to `payload.content?.length`. So a string `content`
  gives no items but reports its length in UTF-16 code units, and an object
  `content` reports its own `length` property (`Format.StringContentCounts`,
  `Format.ObjectContentCounts`).
- A body that fails to read after the headers arrived (an abort, a lost
  connection) fails in `response.text()`, outside the `try` around `fetch`. The
  caller then gets that raw exception (`BodyReadFailure`), not the network
  error, and the token is not cleared even on a 401.
- `TOKEN_EXPIRED` is set on every 401, including unauthenticated calls such
  as login. The token is cleared only for authenticated calls.

## Model

| member | source | states |
|---|---|---|
| `Js.Truthy` | src/lib/utils/format.js:37 | a value is falsy exactly when it is `undefined`, `null`, `false`, `0` or `''` |
| `Js.Or` | src/lib/api/client.js:115-118 | JavaScript logical or is its first operand when that is truthy and its second otherwise; the result is truthy iff either operand is |
| `Js.Coalesce` | src/lib/utils/format.js:59-62 | `a ?? b` is `a` unless `a` is null or undefined, then `b` (so `0` is kept); the result is nullish only when both are |
| `Js.Utf16Length` | src/lib/utils/format.js:59 | a string's `length` counts UTF-16 code units: a single character counts 2 at or above U+10000 and 1 below; any string lies between its character count and twice that |
| `Js.Utf16LengthAppend` | src/lib/utils/format.js:59 | the UTF-16 length of a concatenation is the sum of the parts' lengths, so every character counts as above |
| `Js.Utf16LengthBmp` | src/lib/utils/format.js:59 | a string of characters below U+10000 has exactly one code unit per character |
| `Js.Get` | src/lib/utils/format.js:58-62 | an object gives its own property, or `undefined` when it lacks it; arrays and strings carry only `length` (element count, UTF-16 length); numbers and booleans carry none of the names read |
| `Js.OptionalLength` | src/lib/utils/format.js:59-62 | `v?.length` is `undefined` on nullish values, numbers and booleans, the element count on arrays, the UTF-16 length on strings and the `length` property on objects |
| `Format.NormalizePage` | src/lib/utils/format.js:36-64 | falsy payload gives the all-zero empty page; an array gives a single page over it; an envelope keeps `content` only if it is an array; a counter that is present (`0` included) is kept; missing ones default to 1 (`totalPages`), 0 (`number`) or the content's length (`totalElements`, `size`); no counter is ever null or undefined |
| `Format.ToArray` | src/lib/utils/format.js:66-84 | falsy gives `[]`, an array is returned as is, else `content` if it is an array, else `items` if it is an array, else `[]` |
| `Format.NormalizePageIdempotent` | src/lib/utils/format.js:36-64 | normalising an already normalised page gives the same page |
| `Format.BareArrayIsSingleEnvelope` | src/lib/utils/format.js:47-62 | a bare array is normalised exactly as the envelope `{content: array}` |
| `Format.ToArrayOfPage` | src/lib/utils/format.js:75-77 | `toArray` of a normalised page gives its content |
| `Format.ContentAgreesWithToArray` | src/lib/utils/format.js:36-84 | a page's content equals `toArray` of the same payload except exactly when `toArray` falls back to a non-empty `items` array |
| `Format.StringContentCounts` | src/lib/utils/format.js:58-62 | a string `content` yields no items but totals equal to its length in UTF-16 code units |
| `Format.ObjectContentCounts` | src/lib/utils/format.js:58-62 | an object `content` yields no items but totals equal to its own `length` property, 0 when that is absent |
| `Format.NormalizerExamples` | src/lib/utils/format.js:36-84 | the sample shapes: absent, a three-element array, an `items` wrapper, a `content` wrapper, `null`, an explicit `totalPages: 0`, an emoji string `content` counting 2 |
| `Client.Lookup` | src/lib/api/client.js:13-20 | a read returns the cache or the durable value; a present cache wins; without storage only the cache can supply a token |
| `Client.AfterGet` | src/lib/api/client.js:13-20 | a read never changes the slot, does not change what the next read returns, leaves a filled cache alone and otherwise caches the durable value |
| `Client.AfterSet` | src/lib/api/client.js:23-35 | the cache becomes the token if present, else null; with storage the slot then equals the cache, without storage it is untouched; a present token is what the next read returns |
| `Client.AfterClear` | src/lib/api/client.js:37-39 | the cache is null, and with storage the slot is removed so the next read gives nothing |
| `Client.TokenStore.constructor` | src/lib/api/client.js:4 | at load the cache is empty and the slot holds what an earlier session saved, nothing without storage |
| `Client.TokenStore.ReadFromStorage` | src/lib/api/client.js:6-11 | gives the slot, or nothing when the host has no storage |
| `Client.TokenStore.Get` | src/lib/api/client.js:13-21 | returns `Lookup` of the old state and moves to `AfterGet` of it |
| `Client.TokenStore.Set` | src/lib/api/client.js:23-35 | moves to `AfterSet(old state, t)`: the cache becomes the token when present, else null, and the slot, when storage exists, is written or removed to match |
| `Client.TokenStore.Clear` | src/lib/api/client.js:37-39 | moves to `AfterClear(old state)`, which is `AfterSet(old state, null)` |
| `Client.SetThenGet` | src/lib/api/client.js:13-31 | after setting a non-empty token, a read returns it without changing the store, and the slot (when storage exists) holds it |
| `Client.SetEmptyIsClear` | src/lib/api/client.js:23-39 | setting an empty or absent token is clearing: cache `null`, slot removed, a later read gives nothing |
| `Client.ClearIdempotent` | src/lib/api/client.js:37-39 | clearing twice leaves the store as clearing once |
| `Client.GetCachesSlot` | src/lib/api/client.js:6-20 | with an empty cache a read returns the slot (nothing without storage) and caches it; reads never touch the slot; a second read returns the same and changes nothing more |
| `Client.TokenSurvivesReload` | src/lib/api/client.js:13-35 | a set token is found again after a reload (fresh cache, same slot) iff durable storage exists |
| `Client.Kept` | src/lib/api/client.js:46 | a kept query value is never null or undefined, and every truthy value is kept |
| `Client.KeptVersusTruthy` | src/lib/api/client.js:46 | the query filter keeps every truthy value and, of the falsy ones, exactly `0` and `false` |
| `Client.KeptParams` | src/lib/api/client.js:44-47 | an entry is in the query iff it is among the params and its value is not `undefined`, `null` or `''` |
| `Client.KeptParamsAppend` | src/lib/api/client.js:45-47 | filtering distributes over concatenation, so kept entries stay in insertion order |
| `Client.KeptParamsAllKept` | src/lib/api/client.js:44-47 | params whose values are all kept reach the query unchanged |
| `Client.ZeroPageSurvives` | src/lib/api/client.js:44-47 | `{page: 0}` reaches the query as `page=0` |
| `Client.BuildUrl` | src/lib/api/client.js:41-51 | the URL has the fixed origin, the path, and exactly the kept params in order (none when params are absent) |
| `Client.ParseBody` | src/lib/api/client.js:53-64 | never fails: empty text gives `null`, parsable text its value, unparsable text the text unchanged |
| `Client.ParseBodyRoundTrip` | src/lib/api/client.js:53-64 | for a codec whose parser reads back every JSON value it writes, decoding a serialised JSON value (no `undefined` inside, no number beyond 2^53) gives that value |
| `Client.ErrorMessage` | src/lib/api/client.js:115-118 | the message is always truthy; a non-empty string body is its own message; a falsy body gives the default text |
| `Client.FirstTruthyCons` | src/lib/api/client.js:115-118 | the priority cascade is logical or folded from the right over the candidate list |
| `Client.ErrorMessagePriority` | src/lib/api/client.js:115-118 | the message is the first truthy of `message`, `error`, `details`, then the string body, else the default text |
| `Client.UnparsableBodyIsMessage` | src/lib/api/client.js:53-118 | a non-empty error body that is not JSON becomes the error message verbatim |
| `Client.ResolvedToken` | src/lib/api/client.js:81 | the forced token if present, else the stored one; a token resolves iff either is present |
| `Client.AfterResolve` | src/lib/api/client.js:80-81 | resolving a token never changes the slot or what a read returns, and leaves the store untouched when auth is off or a forced token is present |
| `Client.RequestHeaders` | src/lib/api/client.js:78-92 | `Authorization` is the given token verbatim when one is given; `Content-Type: application/json` is set iff data is not `undefined`; every other caller header passes through unchanged and nothing else is added |
| `Client.Outgoing` | src/lib/api/client.js:77-101 | the request uses the method (default GET), the built URL, the resolved token as `Authorization` on authenticated calls, and the serialised data as body iff data is not `undefined` |
| `Client.Transport.Fetch` | src/lib/api/client.js:94-101 | every transport call is recorded and answered with the scripted outcome |
| `Client.ApiRequest` | src/lib/api/client.js:66-130 | no token on an authenticated call: the "no token" error and no request; otherwise exactly the `Outgoing` request is sent; a thrown fetch gives the network error without status; 204 gives `null` before the body is read; a body that fails to read gives the raw read failure; an ok status the decoded body; a failed status an error with status, payload, message and `TOKEN_EXPIRED` iff 401; the token is cleared iff an authenticated call gets 401 |
| `Client.RejectedTokenNotReused` | src/lib/api/client.js:80-114 | after a 401 clears the store, the next authenticated call without a forced token fails before reaching the network |
| `Client.ForcedTokenPrecedence` | src/lib/api/client.js:80-86 | a present forced token is used and the store is not read; otherwise the stored token is used and the read refills the cache; the call lacks a token iff neither is present |

## Left out

- `formatCurrency` and `formatDateTime` (`src/lib/utils/format.js:1-34`): they depend on `Intl.NumberFormat`, `Date` parsing, locale formatting and floating-point checks.
- The endpoint wrappers of `src/lib/api/index.js`: each only maps its arguments to an `apiRequest` call.
- URL resolution and percent-encoding (`new URL`, `URLSearchParams.append`) are opaque. The path is kept verbatim, query values are kept unconverted, and a path that makes `new URL` throw is not modelled.
- `Object.entries` ordering: params are given as the entry sequence `Object.entries` produces. JavaScript lists integer-like keys first, and that reordering is not modelled.
- Conversions to string are not modelled: query values by `append`, header values, and the message by `new Error(message)`. The message is kept as the JavaScript value it was chosen from.
- The internals of `JSON.parse` and `JSON.stringify` (including stringify throwing on cycles) are not modelled. Parsing is an abstract partial function.
- Real `fetch`, `AbortSignal`, `async`/`await` and the network are not modelled. The transport answers with a scripted outcome. A failure or abort before the response arrives is a `NetFail`; one while the body is read is a `BodyFail`. The exception object such a read throws is kept opaque.
- Concurrent requests racing with a 401-triggered clear are not modelled: each call is modelled alone.
- Host storage errors (a `localStorage` that throws on access) are not modelled.
- Values that the JSON round trip changes are outside the round-trip lemma: `JSON.stringify` drops `undefined` fields and turns `undefined` array elements into `null`, and `JSON.parse` rounds integers beyond 2^53.
- Numbers are unbounded integers: `NaN`, `-0` and fractions are not represented.
- Tokens are strings and `auth` is a boolean or absent: non-string tokens and non-boolean `auth` values are not modelled.
- Client.ApiRequest: states that a 204 result is `null` whatever the body text is. It does not state that the decoder is never invoked, because the abstract parser has no observable call.
