# Personal-finance web client: session store, API headers and list logic

This project models the logic inside a React client for a personal-finance
REST backend and proves properties of that model in Dafny. Four parts of
the client hold decisions worth stating:

- **The session store** (`src/contexts/AuthContext.js`). It holds the current
  `auth` value and the two browser storage tiers that keep the raw JWT under
  `"jwtToken"`: `sessionStorage`, which lives as long as the tab, and
  `localStorage`, which survives restarts. At boot it rebuilds `{ token }`
  from storage, and the session tier wins. `login` and `register` set `auth`
  to the decoded claims and write the token to one tier. `logout` clears both
  tiers. Every failure becomes `false` with nothing changed. This part is a
  class, `AuthContext.AuthProvider`, with `auth`, `sessionStorage` and
  `localStorage` fields.
- **The API client** (`src/services/apiService.js`). It chooses the token:
  `auth.token` if truthy, else the stored token. It builds the
  `Content-Type`/`Authorization` headers, merges caller headers over them,
  and turns a response into a value or an error.
- **The transaction list** (`src/components/TransactionList.js`). It groups
  transactions into per-day buckets. This is the in-place reduce, modelled
  as a loop. It looks up a category's colour, falling back to `#gray`. It
  also holds the view state that submitting the form changes.
- **The payment-method list** (`src/components/PaymentMethodList.js`). It
  deletes after confirmation by filtering the list, refreshes after an add,
  and renders the masked digits.

The backend and `fetch` are inputs: a `ServiceResult` for the login
service, a `Response` for `fetch`, and booleans or `Option`s for the
other services. `jwtDecode` is a partial function parameter. The answer to
`window.confirm` is a boolean. "Today" is a string parameter.

Modules: `Wrappers` (Option, Result), `Storage` (tiers, JavaScript
truthiness and `||`, the stored-token lookup), `Domain` (the entities and
JavaScript ids, where `===` is datatype equality), `AuthContext`,
`ApiService`, `TransactionList` and `PaymentMethodList`.

### Where the code departs from what its users may expect

- One might expect the token never to be held in both tiers. In the code,
  `saveToken` writes one tier and leaves the other alone, so both tiers can
  hold a token. Take a local tier holding an older remembered token and a
  login that is not remembered. A restart then restores the older token.
  `AuthContext.LoginThenRestart` states this.
- Boot probes the session tier first. The same `||` lookup feeds the
  `Authorization` header, and login's decoded claims usually have no
  `token` field. So after a remembered login, a token still in the session
  tier is the one sent and the one restored. `ApiService.HeadersAfterLogin`
  and `AuthContext.LoginThenReload` state this.
- A failed refresh of the payment methods keeps the previous list rather
  than showing the empty state.

## Model

| member | source | states |
|---|---|---|
| `Storage.GetItem` | src/services/apiService.js:4 | `getItem` yields the stored string exactly when the key is present, otherwise null |
| `Storage.Or` | src/services/apiService.js:12 | JavaScript `a \|\| b`: the result is truthy iff either side is; it is `a` when `a` is truthy, otherwise `b` |
| `Storage.StoredToken` | src/services/apiService.js:3-5 | the stored token is the session-tier value when that is non-empty, otherwise the local-tier lookup; a non-empty token is found iff either tier holds one |
| `Storage.NoTokenAfterRemoval` | src/contexts/AuthContext.js:52-55 | once `"jwtToken"` is removed from both tiers, no non-empty stored token is found |
| `AuthContext.InitialAuth` | src/contexts/AuthContext.js:9-12 | boot gives `{ token: t }` iff some tier holds a non-empty token; `t` is the session value when that is non-empty, else the local value; otherwise null |
| `AuthContext.AcceptToken` | src/contexts/AuthContext.js:16-20 | a response is accepted iff the service did not reject, `accessToken` is present and non-empty, and decoding it does not throw; it yields that token and its claims |
| `AuthContext.AuthProvider.constructor` | src/contexts/AuthContext.js:9-12 | the provider boots over the given tiers, unchanged, with `auth` the initial value |
| `AuthContext.AuthProvider.SaveToken` | src/contexts/AuthContext.js:47-50 | the token goes to the local tier when remembered, else to the session tier; the other tier is untouched |
| `AuthContext.AuthProvider.ClearToken` | src/contexts/AuthContext.js:52-55 | `"jwtToken"` is removed from both tiers and every other key is kept |
| `AuthContext.AuthProvider.Login` | src/contexts/AuthContext.js:14-30 | returns true iff the token is accepted; then `auth` is the decoded claims and the token is in the chosen tier, the other tier unchanged; on any failure `auth` and both tiers are unchanged and it returns false |
| `AuthContext.AuthProvider.Register` | src/contexts/AuthContext.js:32-45 | same contract as login, but a new token always goes to the session tier |
| `AuthContext.AuthProvider.Logout` | src/contexts/AuthContext.js:57-60 | `auth` becomes null and `"jwtToken"` leaves both tiers |
| `AuthContext.LoginThenRestart` | src/contexts/AuthContext.js:9-50 | after a restart, a remembered login is restored as `{ token }`; otherwise boot sees the local tier as it was before the login |
| `AuthContext.LoginThenReload` | src/contexts/AuthContext.js:9-50 | after a reload of the same tab, a login that was not remembered is restored; a remembered one is shadowed by an older session-tier token; a failed login restores what boot gave before |
| `AuthContext.LogoutThenBoot` | src/contexts/AuthContext.js:9-60 | logout followed by boot gives a null `auth`, whatever the tiers held |
| `AuthContext.LogoutTwice` | src/contexts/AuthContext.js:52-60 | a second logout changes nothing, so logout is idempotent |
| `ApiService.TokenField` | src/services/apiService.js:12 | `auth?.token` is undefined for a null `auth`, the wrapped token of the boot-time `{ token }`, and the `"token"` claim of decoded claims when they carry one, else undefined |
| `ApiService.DerivedToken` | src/services/apiService.js:12 | the token chosen is `auth.token` when non-empty, otherwise the stored token; it is non-empty iff either is |
| `ApiService.CreateHeaders` | src/services/apiService.js:7-19 | `Content-Type: application/json` is always present; `Authorization` is present iff `auth.token` or the stored token is non-empty, with value `"Bearer " + token` and `auth.token` taking precedence; there are no other keys |
| `ApiService.MergeHeaders` | src/services/apiService.js:24-27 | caller headers override derived ones key by key; derived keys that are not overridden are kept; no other keys appear |
| `ApiService.ApiRequest` | src/services/apiService.js:21-35 | the request goes to `Host + endpoint` with method and body passed on; caller headers win; unless the caller overrides them, `Content-Type` is `application/json` and `Authorization` is sent iff the derived token is non-empty, as `"Bearer " + token`; no other keys appear; it throws "API request failed: " + statusText iff a received response is not ok, and otherwise yields the parsed body |
| `ApiService.HeadersAfterLogin` | src/services/apiService.js:12-16 | after a login whose claims have no `token`, the header carries the new token, unless the login was remembered while the session tier held an older token, which is sent instead |
| `TransactionList.DayKey` | src/components/TransactionList.js:74 | the day key is a prefix of the date, of length 10, or the whole date when it is shorter |
| `TransactionList.GroupByDay` | src/components/TransactionList.js:73-78 | the keys are the distinct day keys in first-occurrence order; there is a bucket per key and no other; each bucket is that day's transactions in input order; every transaction is in its day's bucket; no bucket is empty |
| `TransactionList.BucketMembers` | src/components/TransactionList.js:73-78 | a transaction is in bucket `k` iff it is in the input and its day key is `k` |
| `TransactionList.BucketEmptyIffAbsent` | src/components/TransactionList.js:75-76 | a bucket is empty iff its key is not listed, so no listed bucket is empty |
| `TransactionList.BucketAppend` | src/components/TransactionList.js:76 | the bucket of `a + b` is the bucket of `a` followed by that of `b`: relative input order is kept within a bucket |
| `TransactionList.DayKeysDistinct` | src/components/TransactionList.js:75 | no day key is listed twice |
| `TransactionList.DayKeysCover` | src/components/TransactionList.js:75 | a key is listed iff some transaction has it as its day key |
| `TransactionList.DayKeysPrefix` | src/components/TransactionList.js:75 | the keys of a prefix of the input are a prefix of the keys of the whole input (first-occurrence order) |
| `TransactionList.GroupingIsPermutation` | src/components/TransactionList.js:73-78 | the buckets concatenated in key order are a permutation of the input, so the count is preserved |
| `TransactionList.SameDaySameBucket` | src/components/TransactionList.js:74 | `2024-01-02T10:00` and `2024-01-02T23:00` share the single bucket `2024-01-02` |
| `TransactionList.NotChronological` | src/components/TransactionList.js:92 | a later day seen first is listed first: buckets are not sorted by date |
| `TransactionList.FindCategory` | src/components/TransactionList.js:81 | `find` gives the first index whose id strictly equals the one sought, and none iff no id does |
| `TransactionList.CategoryColor` | src/components/TransactionList.js:80-83 | the colour is that of the first category with a strictly equal id, or `#gray` when there is none |
| `TransactionList.StrictIdMatch` | src/components/TransactionList.js:81 | a numeric id 3 matches `3` but not the string `"3"` |
| `TransactionList.TransactionListView.constructor` | src/components/TransactionList.js:11-24 | the view starts with empty lists, both modals closed and a blank form dated today |
| `TransactionList.TransactionListView.HandleSubmit` | src/components/TransactionList.js:40-58 | when the create and the refetch both succeed, the list is the refetched one, the form is closed and reset to blank fields dated today; otherwise list, form and visibility are unchanged; the rest of the state is never touched |
| `TransactionList.TransactionListView.HandlePaymentMethodAdded` | src/components/TransactionList.js:60-64 | a refetch replaces the payment methods and closes the modal; a failed refetch rejects with nothing changed |
| `PaymentMethodList.WithoutId` | src/components/PaymentMethodList.js:23 | the filtered list holds exactly the methods whose id differs from the deleted one, and is no longer than the original |
| `PaymentMethodList.WithoutIdAppend` | src/components/PaymentMethodList.js:23 | the filter works segment by segment, so the kept methods keep their original order |
| `PaymentMethodList.WithoutIdKeepsOthers` | src/components/PaymentMethodList.js:23 | every method with another id survives as many times as it occurred |
| `PaymentMethodList.WithoutIdAbsent` | src/components/PaymentMethodList.js:23 | deleting an id that is not in the list leaves the list unchanged |
| `PaymentMethodList.WithoutIdIdempotent` | src/components/PaymentMethodList.js:23 | filtering the same id twice equals filtering it once |
| `PaymentMethodList.MaskedDigits` | src/components/PaymentMethodList.js:59 | the display is `"**** **** **** "` followed by the last digits, which can be read back from it |
| `PaymentMethodList.Render` | src/components/PaymentMethodList.js:54-72 | the empty-state message "No payment methods available." is shown iff there are no methods; otherwise there is one row per method, in order, with its name and masked digits |
| `PaymentMethodList.PaymentMethodListView.constructor` | src/components/PaymentMethodList.js:8-9 | the view starts with no methods and the form closed |
| `PaymentMethodList.PaymentMethodListView.HandleDelete` | src/components/PaymentMethodList.js:19-28 | the delete is issued iff confirmed; only a confirmed, successful delete filters out that id; a denial or a failed delete changes nothing |
| `PaymentMethodList.PaymentMethodListView.HandlePaymentMethodAdded` | src/components/PaymentMethodList.js:30-38 | a refetch replaces the list and closes the form; a failed refetch changes neither |
| `PaymentMethodList.AddThenDelete` | src/components/PaymentMethodList.js:19-72 | adding Visa 1234 shows `**** **** **** 1234`; deleting it shows the empty state; a second, denied delete issues nothing |

## Left out

- Network I/O. `fetch` and the login, transaction, category and payment-method services are inputs to the model, and their request bodies are not modelled.
- `jwtDecode` internals. It is a foreign library, so it is a partial function parameter. Claims are string-valued.
- React rendering, hooks, context wiring, and the `useEffect` loading of the lists (`TransactionList.js:26-38`, `PaymentMethodList.js:11-17`). This is UI and async plumbing. Async interleaving and stale results after unmount are not modelled either.
- `formatAmount`. It is floating-point and locale formatting.
- The clock. `new Date().toISOString()` is replaced by a `today` string.
- `window.confirm` is a boolean input. Console logging is left out.
- HTML form constraints and the per-field `onChange` updates and open/close buttons. The browser and UI wiring handle these.
- `src/components/Login.js` and `src/components/ModalCreatePaymentMethod.js` are not part of this model. They only choose a message or call a service.
- `AuthContext.AuthProvider.SaveToken`: `setItem` is modelled as never throwing. A storage quota error there would make login return false after `auth` was already set.
- `TransactionList.GroupByDay`: keys are kept in insertion order. JavaScript lists integer-like object keys first, in numeric order. Also, day keys equal to inherited object properties (`toString`, `valueOf`, `__proto__`) make the source throw. Neither case can arise from ISO dates.
- `TransactionList.DayKey`: the ten characters are Dafny characters, not UTF-16 code units.
- `Domain.Id` covers numbers (as integers), strings and `undefined`. `NaN`, `null` and object ids are not modelled.
- `ApiService.ApiRequest`: the error texts for a rejected `fetch` and for a body that is not JSON are placeholders. The extra `auth` option that is passed on to `fetch` is not modelled.
