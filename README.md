# A verified model of the fake account API and the session service

This project models the two stateful parts of an Angular front end that logs users in with
Facebook and manages account records:

- **The fake backend** (`src/app/_helpers/fake-backend.ts`). An HTTP interceptor that stands
  in for a REST API. It keeps an ordered list of account records in memory, copied from local
  storage at page load. It answers five routes: authenticate (find-or-create by Facebook id),
  list, get by id, update (a shallow merge done in place) and delete. After every change it
  writes the whole list back to local storage.
- **The session service** (`src/app/_services/account.service.ts`). `AccountService` holds the
  logged-in account and the handle of the pending token-refresh timer. Its methods log in, log
  out, merge updates into the session, and log out when the user deletes their own account.

Files:

- `wrappers.dfy`: `Option` and `Result`.
- `text.dfy`: decimal digits, `startsWith`/`endsWith`, and the last `/` segment of a URL.
- `accounts.dfy`: the account record, `Object.assign`, `find`, `newAccountId` and `filter`.
- `token.dfy`: the fake token `fake-jwt-token.` + payload `{"exp":…,"id":…}`, reading it back,
  the bearer check, the 15-minute expiry, and the refresh delay.
- `fake_backend.dfy`: route dispatch and each route as a pure function from the store to an
  `Outcome` (response, new store, whether it was saved). Class `Interceptor` holds the store
  and the local-storage slot and runs the same steps.
- `session.dfy`: the provider token mapping, the session merge, the browser timer table, and
  class `AccountService`.

The class methods are proved against the pure route functions. The properties are lemmas
about those functions: find-or-create, idempotent login, fresh and unique ids, "unauthorized
changes nothing", "every change is saved", delete keeping the other records in order, and the
token round trip.

Three behaviours of the code that the model keeps as they are:

- `startAuthenticateTimer` does not cancel an earlier timer; it overwrites the one handle it
  keeps. After two authentications `logout` cancels only the second timer, and the first
  stays pending (`Session.SecondStartOrphansFirst`).
- `updateAccount` on an id no record has calls `Object.assign(undefined, …)`, which throws.
  The model answers `Fault(TypeError)` with the store unchanged and nothing saved
  (`FakeBackend.UpdateTouchesOnlyTarget`). Get answers an empty 200 for the same id, and so
  does delete.
- `deleteAccount` keeps every record whose id differs from the URL's, so it removes all
  records with that id; with unique ids that is exactly one
  (`FakeBackend.DeleteKeepsOthersInOrder`).

## Model

| member | source | states |
|---|---|---|
| Accounts.Find | src/app/_helpers/fake-backend.ts:47 | `find` gives the first record matching the key; none is given only when no record matches |
| Accounts.FindAppend | src/app/_helpers/fake-backend.ts:47-58 | appending a record keeps an earlier match; a miss becomes a hit at the new index exactly when the new record matches |
| Accounts.AssignIdempotent | src/app/_helpers/fake-backend.ts:86 | applying the same update body twice gives the same record as applying it once |
| Accounts.AssignKeepsAbsentKeys | src/app/_helpers/fake-backend.ts:86 | each of the five keys (`id`, `facebookId`, `name`, `extraInfo`, `token`) that is missing from the body keeps its old value; an empty body leaves the record as it was |
| Accounts.Assign | src/app/_helpers/fake-backend.ts:86 | every key present in the body overwrites the record's value for it |
| Accounts.AssignMergeExample | src/app/_helpers/fake-backend.ts:86 | merging `{extraInfo: "y"}` into `{id: 1, name: "A", extraInfo: "x"}` gives `{id: 1, name: "A", extraInfo: "y"}` |
| Accounts.MaxId | src/app/_helpers/fake-backend.ts:123 | `Math.max` of the ids bounds every id and is the id of some record |
| Accounts.NewAccountId | src/app/_helpers/fake-backend.ts:122-124 | 1 on an empty store; otherwise one more than an existing id and greater than every id (ids below 2^53), so it never collides |
| Accounts.WithoutId | src/app/_helpers/fake-backend.ts:96 | the filter never lengthens the store |
| Accounts.WithoutIdMembers | src/app/_helpers/fake-backend.ts:96 | the filter keeps exactly the records whose id differs |
| Accounts.WithoutIdConcat | src/app/_helpers/fake-backend.ts:96 | filtering a concatenation filters each part, so the order is kept |
| Accounts.WithoutAbsentId | src/app/_helpers/fake-backend.ts:96 | when no record has the id, the filter returns the store unchanged |
| Accounts.WithoutUniqueId | src/app/_helpers/fake-backend.ts:96 | with unique ids, the filter cuts out exactly the record at index k and keeps the rest in order |
| Accounts.WithoutIdIdempotent | src/app/_helpers/fake-backend.ts:96 | filtering twice by the same id is the same as filtering once |
| Accounts.WithoutIdKeepsUnique | src/app/_helpers/fake-backend.ts:96 | the filter keeps ids unique |
| Text.LastSegment | src/app/_helpers/fake-backend.ts:118-119 | the last element of `url.split('/')` has no slash, ends the URL, and follows a slash unless it is the whole URL |
| Text.LastSegmentAfterSlash | src/app/_helpers/fake-backend.ts:118-119 | the last segment of `p + "/" + seg` is `seg` when `seg` has no slash |
| Text.LeadingDigitCount | src/app/_helpers/fake-backend.ts:119 | the number of leading decimal digits: all of them are digits and the next character is not |
| Text.LeadingDigitsOf | src/app/_helpers/fake-backend.ts:119 | a digit run followed by a non-digit is read up to exactly its end |
| Text.NatText | src/app/_helpers/fake-backend.ts:132 | the JSON text of a number is a non-empty run of digits that starts with 0 only for zero |
| Text.NatTextValue | src/app/_helpers/fake-backend.ts:132 | the JSON text of a number reads back as that number |
| FakeBackend.IdPathDispatch | src/app/_helpers/fake-backend.ts:24-29 | `…/accounts/<digits>` matches the id pattern and goes to get, update or delete by verb (anything else passes through); the id read from it is the number the digits spell |
| FakeBackend.Dispatch | src/app/_helpers/fake-backend.ts:18-34 | authenticate only for POST to `…/accounts/authenticate`, list only for GET of `…/accounts`, the id routes only for URLs matching `/accounts/\d+$` (which always give an id), chosen by verb there; any other verb passes through |
| FakeBackend.MatchesIdPath | src/app/_helpers/fake-backend.ts:24 | a URL matching `/accounts/\d+$` ends in a digit, and `idFromUrl` on it gives the value of its last segment |
| FakeBackend.IdFromUrl | src/app/_helpers/fake-backend.ts:117-120 | reads the decimal value of the leading digits of the last segment, and `NaN` exactly when the segment does not start with a digit; on the all-digit segments the id pattern lets through this is what `parseInt` gives (other segments: see Left out) |
| FakeBackend.IdPathId | src/app/_helpers/fake-backend.ts:117-120 | `idFromUrl` on a URL matching `/accounts/\d+$` gives the value of the trailing digits |
| FakeBackend.DigitEndNotNamed | src/app/_helpers/fake-backend.ts:20-23 | a URL ending in a digit matches neither `/accounts/authenticate` nor `/accounts` |
| FakeBackend.GetAuthenticatePassesThrough | src/app/_helpers/fake-backend.ts:19-33 | `GET …/accounts/authenticate` matches no route and is passed through |
| FakeBackend.NamedRoutesDispatch | src/app/_helpers/fake-backend.ts:20-23 | `POST …/accounts/authenticate` authenticates and `GET …/accounts` lists |
| FakeBackend.GetAccounts | src/app/_helpers/fake-backend.ts:67-70 | 200 with the whole store when the bearer check passes, 401 otherwise |
| FakeBackend.Status | src/app/_helpers/fake-backend.ts:103-111 | status 200 exactly for `ok`, 401 exactly for `unauthorized`, and none for a thrown exception or a passed-through request |
| FakeBackend.LookupId | src/app/_helpers/fake-backend.ts:75 | gives the first index whose id is the URL's id; gives nothing for `NaN` or a missing id |
| FakeBackend.GetAccountById | src/app/_helpers/fake-backend.ts:72-77 | 401 exactly when unauthorized; otherwise 200 with a stored record carrying the URL's id, or an empty body exactly when no record has it |
| FakeBackend.AuthenticateFindOrCreate | src/app/_helpers/fake-backend.ts:47-63 | a known provider id answers its first record and leaves the store unsaved and unchanged; an unknown one appends exactly one record `{newAccountId(), facebookId, name, extraInfo}` at the end and saves; the answer always has a token that decodes to the answered id and the expiry |
| FakeBackend.AuthenticateOutcome | src/app/_helpers/fake-backend.ts:38-65 | 401 exactly on a provider error; otherwise 200 with a record carrying the provider id; the store only ever grows by one record at the end, and it is saved exactly when it grew |
| FakeBackend.ExtraInfo | src/app/_helpers/fake-backend.ts:54 | the extra info text carries the account's name right after its fixed 30-character opening |
| FakeBackend.NewAccount | src/app/_helpers/fake-backend.ts:50-55 | the new record carries the provider id and name, has no token, and has an id greater than every stored id |
| FakeBackend.WithToken | src/app/_helpers/fake-backend.ts:60-63 | the answered record is the record with only its token replaced, and that token decodes to the record's id and the 15-minute expiry |
| FakeBackend.AuthenticateIdempotent | src/app/_helpers/fake-backend.ts:47-58 | a second login with the same provider id answers the same internal id, leaves the store as the first left it, and saves nothing |
| FakeBackend.AuthenticateKeepsUnique | src/app/_helpers/fake-backend.ts:47-56 | authentication keeps both the ids and the provider ids unique |
| FakeBackend.ProviderErrorRejected | src/app/_helpers/fake-backend.ts:45 | a provider error is a 401 with the provider's message (`'Unauthorized'` when it has none), and the store is unchanged and unsaved |
| FakeBackend.UnauthorizedLeavesStore | src/app/_helpers/fake-backend.ts:67-99 | list, get, update and delete without the bearer prefix give 401 `'Unauthorized'`, and neither the store nor local storage changes |
| FakeBackend.EveryChangeIsSaved | src/app/_helpers/fake-backend.ts:56-97 | any route that changes the store also saves it; only the create, update and delete paths save, and they answer 200 |
| FakeBackend.UpdateTouchesOnlyTarget | src/app/_helpers/fake-backend.ts:79-90 | update merges the body into the first record with the URL's id, answers that record, saves, and leaves every other record unchanged; a missing id throws, changes nothing and saves nothing |
| FakeBackend.UpdateKeepsUniqueIds | src/app/_helpers/fake-backend.ts:82-87 | a body without an `id` key keeps ids unique |
| FakeBackend.UpdateOutcome | src/app/_helpers/fake-backend.ts:79-90 | the store keeps its length; 401 exactly without the bearer prefix; saved exactly when it answers 200, and then with a record that is in the new store; nothing changes unless it saves |
| FakeBackend.UpdateCanDuplicateIds | src/app/_helpers/fake-backend.ts:86 | a body carrying another record's id makes two records share an id |
| FakeBackend.DeleteKeepsOthersInOrder | src/app/_helpers/fake-backend.ts:92-99 | with unique ids, delete removes just the record with the URL's id, keeps the rest in order, answers an empty 200 and saves |
| FakeBackend.Remaining | src/app/_helpers/fake-backend.ts:96 | keeps exactly the records whose id differs from the URL's (all of them for `NaN`) and never lengthens the store |
| FakeBackend.DeleteOutcome | src/app/_helpers/fake-backend.ts:92-99 | saves and answers an empty 200 exactly when the bearer check passes, otherwise a 401 with the store unchanged; every remaining record was in the store |
| FakeBackend.DeleteAbsentIsNoOp | src/app/_helpers/fake-backend.ts:96-98 | deleting an id no record has still answers an empty 200 and leaves the store unchanged; a second delete of the same id changes nothing |
| FakeBackend.FirstLoginOnEmptyStore | src/app/_helpers/fake-backend.ts:47-63 | the first login, as "fb123", on an empty store creates account 1; it answers 200 with a token decoding to id 1 and the expiry |
| FakeBackend.NewIdAfterGaps | src/app/_helpers/fake-backend.ts:123 | with ids 1, 3 and 5 the next id is 6 |
| FakeBackend.HandleOutcome | src/app/_helpers/fake-backend.ts:12-34 | passes through exactly the requests `handleRoute` matches no case for; the store grows by at most one record and changes only when it is saved |
| FakeBackend.Interceptor.constructor | src/app/_helpers/fake-backend.ts:8 | the store is the persisted list, or empty when the key is absent |
| FakeBackend.Interceptor.Save | src/app/_helpers/fake-backend.ts:57 | the storage slot then equals the store |
| FakeBackend.Interceptor.Authenticate | src/app/_helpers/fake-backend.ts:38-65 | performs the find-or-create of `AuthenticateOutcome` step by step: `push`, then save; keeps storage in step with memory |
| FakeBackend.Interceptor.UpdateAccount | src/app/_helpers/fake-backend.ts:79-90 | performs `UpdateOutcome` in place: assigns into the found record, then saves; keeps storage in step with memory |
| FakeBackend.Interceptor.DeleteAccount | src/app/_helpers/fake-backend.ts:92-99 | performs `DeleteOutcome`: replaces the store with the filtered list, then saves; keeps storage in step with memory |
| FakeBackend.Interceptor.Intercept | src/app/_helpers/fake-backend.ts:12-34 | dispatches as `handleRoute` does; the response, the store and the slot are those of `HandleOutcome` |
| Token.IndexOf | src/app/_services/account.service.ts:105 | gives the position of the first occurrence of the character, and nothing exactly when it does not occur |
| Token.UpToDot | src/app/_services/account.service.ts:105 | the split element ends at the next dot and has no dot in it |
| Token.IntTextParses | src/app/_services/account.service.ts:105 | `JSON.parse` reads back the integer `JSON.stringify` wrote, and what follows it |
| Token.PayloadJsonRoundTrip | src/app/_helpers/fake-backend.ts:128-132 | the JSON text of a payload parses back to that payload |
| Token.PayloadJson | src/app/_helpers/fake-backend.ts:128-132 | the JSON text of the payload is an object starting with the `exp` key, and it has no dot |
| Token.IntText | src/app/_helpers/fake-backend.ts:132 | the JSON text of an integer is non-empty, starts with `-` exactly for a negative number, and is all digits otherwise |
| Token.ParseIntPrefix | src/app/_services/account.service.ts:105 | reading an integer consumes at least one character, leaves a suffix of the input that does not start with a digit, and fails exactly when no digit follows the optional sign |
| Token.PayloadFromJson | src/app/_services/account.service.ts:105 | a payload is read only from text that starts with the `exp` key and ends with `}` |
| Token.SecondSegment | src/app/_services/account.service.ts:105 | `split('.')[1]` is `undefined` exactly when the token has no dot, and otherwise has no dot in it |
| Token.GenerateJwtToken | src/app/_helpers/fake-backend.ts:126-133 | the token starts with `fake-jwt-token.` and decodes to exactly the payload it was made from |
| Token.DecodeToken | src/app/_services/account.service.ts:105 | a token without a dot has no second segment and decodes to nothing |
| Token.TokenRoundTrip | src/app/_services/account.service.ts:105 | `fake-jwt-token.` followed by the JSON text of a payload decodes, through `token.split('.')[1]`, to exactly that payload |
| Token.TokenInjective | src/app/_helpers/fake-backend.ts:126-133 | different payloads give different tokens |
| Token.IssuedTokenIsLoggedIn | src/app/_helpers/fake-backend.ts:113-115 | `"Bearer " + token` for any issued token passes `isLoggedIn` |
| Token.IsLoggedIn | src/app/_helpers/fake-backend.ts:113-115 | the check passes exactly when the header is present and is `Bearer fake-jwt-token` followed by anything |
| Token.IsLoggedInIgnoresPayload | src/app/_helpers/fake-backend.ts:114 | the check only looks at the prefix: a header with no decodable payload passes |
| Token.ExpiryFor | src/app/_helpers/fake-backend.ts:129 | `exp` is `(now + 15 min) / 1000` rounded half up: `exp*1000` is within half a second of `now + 900000` |
| Token.ExpiryOnWholeSecond | src/app/_helpers/fake-backend.ts:129 | issued on a whole second, the token expires exactly 900 s later |
| Token.RefreshDelay | src/app/_services/account.service.ts:108-109 | the timer fires 60 s before expiry: `now + delay == exp*1000 - 60000` |
| Token.RefreshDelayOfFreshToken | src/app/_services/account.service.ts:107-109 | for a freshly issued token the refresh falls 14 minutes after issue, within half a second |
| Session.FacebookLogin | src/app/_services/account.service.ts:41-48 | nothing exactly when the provider gave no `authResponse`; otherwise exactly its `accessToken` |
| Session.ReturnUrl | src/app/_services/account.service.ts:36 | the `returnUrl` query parameter, or `/` when it is absent or empty |
| Session.Merge | src/app/_services/account.service.ts:83 | `{...current, ...returned}`: the returned record's keys win; the current token survives when the record has none |
| Session.MergeIdempotent | src/app/_services/account.service.ts:83 | merging the same record again changes nothing |
| Session.SetTimeout | src/app/_services/account.service.ts:111-113 | schedules the refresh under a handle not in use; the other timers are kept |
| Session.ClearTimeout | src/app/_services/account.service.ts:116-119 | cancels the timer with that handle only; an `undefined` handle cancels nothing |
| Session.ClearCancelsStart | src/app/_services/account.service.ts:116-119 | cancelling by the handle just returned undoes the start |
| Session.SecondStartOrphansFirst | src/app/_services/account.service.ts:111 | after two starts, cancelling the kept handle leaves the first timer pending |
| Session.AccountService.constructor | src/app/_services/account.service.ts:22 | the session starts as `null`, with no timer handle |
| Session.TimerFor | src/app/_services/account.service.ts:105-113 | a refresh is scheduled exactly when the token decodes and the provider has an auth response; it carries the provider's access token and fires 60 s before the token's expiry |
| Session.TokenPayload | src/app/_services/account.service.ts:105 | without a token, or with a token that has no dot, nothing is read |
| Session.IssuedTokenPayload | src/app/_services/account.service.ts:105 | from an account holding a token the backend issued, the timer reads exactly the payload it was issued for |
| Session.AuthenticateResult | src/app/_services/account.service.ts:50-59 | the account is handed on exactly when the answer succeeded, its token decodes and the provider has an auth response; an HTTP error is handed on as it is |
| Session.AccountService.StartAuthenticateTimer | src/app/_services/account.service.ts:103-114 | schedules a refresh 60 s before the expiry read from the current token, with the provider's current access token; an unreadable token or no auth response throws before anything is scheduled |
| Session.AccountService.ApiAuthenticate | src/app/_services/account.service.ts:50-59 | an HTTP error changes nothing and is handed on; on success the session becomes exactly the returned account, and when the timer does not throw, its refresh is added to the table under a new handle that becomes the kept one, otherwise the table and the handle stay as they were |
| Session.AccountService.Logout | src/app/_services/account.service.ts:61-67 | cancels the timer whose handle is kept and sets the session to `null` |
| Session.AccountService.Login | src/app/_services/account.service.ts:30-39 | with no provider token nothing is sent and nothing changes; otherwise exactly that token is exchanged with the state change of `apiAuthenticate`, and it navigates to the return URL exactly when `apiAuthenticate` hands the account on |
| Session.AccountService.FireRefresh | src/app/_services/account.service.ts:111-113 | a firing refresh sends the access token it captured, leaves the table, and then changes the state as `apiAuthenticate` does from the table without it |
| Session.AccountService.Update | src/app/_services/account.service.ts:77-88 | when the returned id is the session's, the session becomes the merge and the merge is returned; otherwise the session is unchanged and the record is passed on; with no session it throws |
| Session.AccountService.Delete | src/app/_services/account.service.ts:90-97 | whatever the call's result, deleting the session's own id logs out; any other id leaves the session unchanged; the result is passed on |

## Left out

- RxJS plumbing (`of`, `from`, `concatMap`, `materialize`, the 500 ms `delay`). A route's
  response is a value: `Ok` (200), `Unauthorized` (401), `Fault` (an exception thrown by the
  route) or `PassThrough` (`next.handle`).
- The `fetch` to the provider's profile endpoint. The authenticate route takes the provider's
  answer as a parameter (`ProviderResult`). How an access token maps to a profile is not
  modelled, and neither is a request body without `accessToken`.
- Two failures of that `fetch` that `ProviderResult` cannot express. A rejected `fetch` never
  calls `resolve`, so the request never gets an answer. A reply that is not JSON makes
  `response.json()` reject, and the route fails with that exception instead of a 401. The
  model covers only a parsed reply: a profile, or an `error` object.
- Local storage is the field `Interceptor.slot`. `JSON.stringify`/`JSON.parse` of the record
  list are a value copy.
- `btoa`/`atob` are taken as the identity on the payload text. Base64 is a bijection on ASCII
  text and its output has no dot, so the token round trip is unaffected. `JSON.parse` of the
  payload reads only the shape `JSON.stringify` writes.
- `Date.now()` is a parameter in milliseconds. Floating-point division, and `Math.round` beyond
  2^53 or outside the `Date` range, are not modelled: integer floor division stands in.
- `parseInt` beyond plain decimal digits. It skips leading spaces (`" 7"` is 7), reads a sign
  (`"+7"` is 7, `"-7"` is -7), reads a `0x` prefix as hexadecimal (`"0x1A"` is 26, where
  `IdFromUrl` reads 0), and loses precision above 2^53. None of these forms reaches a route:
  the id routes run only on URLs whose last segment is all digits, and there `IdFromUrl` is
  exact (`FakeBackend.MatchesIdPath`).
- `Math.max(...ids)` failing on very large stores (the argument-count limit).
- Accounts.NewAccountId: ids are unbounded integers here, while the source's ids are doubles.
  Once the largest id reaches 2^53, `Math.max(...ids) + 1` gives that same id back. An update
  body may set any id (`FakeBackend.UpdateCanDuplicateIds`), so a PUT with
  `{"id": 9007199254740992}` followed by a first login gives two records that id. The fresh-id
  property of `NewAccountId` and the unique-id property of `FakeBackend.AuthenticateKeepsUnique`
  hold only while every id is below 2^53.
- Aliasing. `getAccounts` answers the live array, and `find` answers the live record, so a
  caller that mutates them (the home page sets `isDeleting` on a record) changes the store.
  The model answers values.
- Keys other than `id`, `facebookId`, `name`, `extraInfo` and `token` in an update body, and
  values of other JSON types.
- `FB.login`, `FB.api`, `FB.logout`, `FB.getAuthResponse` and `FB.init` are inputs or left
  out. The permission revoke and provider logout in `logout` are not modelled.
- Router navigation is a returned value. It appears only in `Login`; `logout`'s navigation to
  `/login` is left out.
- `setTimeout` scheduling is a table of pending timers, and firing is an explicit step. The
  browser's clamping of negative or very large delays is not modelled.
- Session.AccountService.Delete: does not model the `TypeError` its finalizer throws when
  nobody is logged in; the model leaves the session unchanged in that case.
- Session.AccountService.Delete: takes the id as a number. The source declares
  `delete(id: string)` and compares it with `===` against the numeric `accountValue.id`, so a
  self-delete logs out only when the caller actually passes the number. The model assumes it
  does; a string id would never log out.
- Session.AccountService.FireRefresh: the HTTP answer is taken to arrive right away. The
  interleaving where `logout` runs while a refresh request is in flight, and the answer then
  sets the session again, is not modelled.
- `getAll` and `getById` of the service only forward to HTTP and hold no state; they are not
  modelled.
- `app.initializer.ts` (SDK bootstrap and script injection) and the UI components: they have
  no logic of their own worth verifying here.
- Several tabs sharing one storage key. The model has one writer.
