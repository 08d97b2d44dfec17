# Client session and role gate of the profile dashboard

This project models, in Dafny, the part of the user-profile dashboard client
that decides who the user is and what they may see:

- **Token helpers** (`TokenCodec`): `parseJWT` reads the payload segment of a
  compact JSON Web Token (RFC 7519, section 3), turns its base64url alphabet
  into base64 (RFC 4648, section 5), decodes and parses it, and copies
  `user_id`, `username` and `role`; `isTokenExpired` compares the payload's
  `exp` with the clock. Neither checks a signature, and both absorb every
  failure (`null` and "expired" respectively).
- **Session provider** (`Session`): one `AuthState {user, isAuthenticated,
  isLoading, accessToken}` and two browser stores, the session-storage slot
  `access_token` and the cookie `refresh_token`. Its transitions (startup,
  refresh, the refresh-failure reset, logout) are written twice: as pure
  functions of the stores (`Refresh`, `Startup`, `AfterLogout`), which carry
  the properties, and as methods of the `AuthProvider` class, which update
  the state field and the shared store objects in place and are proved equal
  to those functions. The mock switch `USE_MOCK` is a constructor flag.
- **Transport helpers** (`Api`): `getBaseURL` from the host name, the request
  interceptor that stamps `Authorization: Bearer <token>` from the live
  session slot, and the `createInvitations` path with its optional `?count=`.
- **Role gate** (`Profile`): the nine-tab table with the roles each admits,
  the role default, the order-preserving filter, and the dispatch from the
  active tab to its content panel.
- `Strings` holds the JavaScript string operations these rely on (`split`,
  `includes`, global `replace`, decimal printing), each proved against an
  independent characterisation; `Scenarios` shows the provider and the client
  sharing one session storage.

The browser decoders (`atob`, `decodeURIComponent`, `JSON.parse`) are the
three fields of a `Codec` value, each returning `None` where it would throw;
the percent-escaping between `atob` and `decodeURIComponent` is modelled
exactly. `parseJWT` and `isTokenExpired` read the payload differently (only
the first has the UTF-8 step), so the model keeps the two readings apart.
The clock is a parameter `now` in milliseconds, the refresh request a
parameter `exchange` from refresh token to response, the host name a
constructor argument of the client.

Behaviour of the code worth knowing, all of it modelled as written:

- a role outside the four sees no tab; there is no fallback to `student`;
- a failed refresh, and a startup that ends signed out, leave the stored
  access token in session storage, and the interceptor keeps sending it;
- the interceptor reads session storage, not the published state, so in mock
  mode `mock-token` is never sent;
- `logout` ignores the mock switch;
- an `exp` that coerces to NaN (missing, a non-numeric string, an object) is
  reported as not expired, since `NaN < now` is false; an `exp` of `null`
  coerces to 0 and is reported expired;
- the role is copied from the token unchecked, not restricted to four values;
- overlapping refreshes are not coalesced and a refresh finishing after logout
  is not discarded; each transition is one atomic step.

## Model

| member | source | states |
|---|---|---|
| `Strings.Split` | src/contexts/AuthContext.tsx:22 | `split` gives several pieces exactly when the separator occurs, the first being the text before its first occurrence |
| `Strings.SplitPiecesExcludeSeparator` | src/lib/api.ts:8 | no piece of a split holds the separator |
| `Strings.SplitJoin` | src/lib/api.ts:8 | joining the pieces with the separator gives the split string back |
| `Strings.FirstPiece` | src/lib/api.ts:9 | the first piece is a prefix running to the first separator or the end |
| `Strings.SecondPiece` | src/contexts/AuthContext.tsx:22 | the second piece starts right after the first separator and runs to the next one or the end |
| `Strings.Includes` | src/lib/api.ts:7 | `includes` holds exactly when the pattern occurs at some position of the string |
| `Strings.ReplaceAll` | src/contexts/AuthContext.tsx:23 | a global one-character replace keeps the length and changes exactly the occurrences of that character |
| `Strings.NatToDecimal` | src/lib/api.ts:67 | a count is printed as decimal digits with no leading zero that read back as the same number |
| `Strings.IntToDecimal` | src/lib/api.ts:67 | an integer count prints as its decimal digits, with a leading minus sign exactly when it is negative |
| `TokenCodec.PayloadSegment` | src/contexts/AuthContext.tsx:22 | `token.split('.')[1]` is missing exactly when the token has no dot; otherwise it is the dot-free text that starts right after the first dot and ends at the next dot or the end |
| `TokenCodec.Base64UrlToBase64` | src/contexts/AuthContext.tsx:23 | every `-` becomes `+`, every `_` becomes `/`, length and all other characters unchanged |
| `TokenCodec.EscapeChar` | src/contexts/AuthContext.tsx:27 | each character becomes `%` and two lower-case hex digits whose value is the character code modulo 256 |
| `TokenCodec.PercentEscape` | src/contexts/AuthContext.tsx:24-29 | the escaped text is three characters per input character, the i-th triple escaping the i-th character |
| `TokenCodec.UserPayload` | src/contexts/AuthContext.tsx:22-30 | the payload `parseJWT` reads: none without a payload segment, and a parse result only after base64 and UTF-8 decoding both succeeded |
| `TokenCodec.ExpiryPayload` | src/contexts/AuthContext.tsx:43-45 | the payload `isTokenExpired` reads: none without a payload segment, and a parse result only after base64 decoding succeeded, with no UTF-8 step |
| `TokenCodec.ParseJwt` | src/contexts/AuthContext.tsx:20-39 | no user for a token without a dot; a user exactly when the payload parses to a non-null value, and then its three fields are the payload's |
| `TokenCodec.UndecodableUserPayloadHasNoUser` | src/contexts/AuthContext.tsx:20-38 | bad base64, bad UTF-8, bad JSON or a JSON null all give no user |
| `TokenCodec.IsTokenExpired` | src/contexts/AuthContext.tsx:41-50 | expired when the payload cannot be read or is null; otherwise expired exactly when `exp*1000 < now`, never when `exp` is NaN |
| `TokenCodec.UnreadableTokenFailsSafe` | src/contexts/AuthContext.tsx:41-50 | a token with no segment, bad base64, bad JSON or a null payload is reported expired |
| `TokenCodec.MissingExpiryNeverExpires` | src/contexts/AuthContext.tsx:46 | a readable payload whose `exp` coerces to NaN (missing, a non-numeric string, an object) is not expired at any time |
| `TokenCodec.ExpiryIsMonotoneInTime` | src/contexts/AuthContext.tsx:46 | a token expired at some time is expired at every later time |
| `Session.InitialState` | src/contexts/AuthContext.tsx:69-74 | the first state satisfies the invariant; in mock mode it is the demo admin signed in with `mock-token`, otherwise nobody and loading |
| `Session.Consistent` | src/contexts/AuthContext.tsx:13-18 | the invariant every state the provider writes keeps: signed in exactly when a user is present and exactly when a token is present, hence signed in exactly when a token is held |
| `Session.Refresh` | src/contexts/AuthContext.tsx:76-107 | the cookie is never touched; without a cookie nothing changes; success stores the new token, publishes its parsed user with that token and not loading; failure keeps the stored token and leaves the state alone or signs out; every written state satisfies the invariant |
| `Session.RefreshSucceeds` | src/contexts/AuthContext.tsx:82-97 | a parsable access token becomes the published and the stored token, with its user, and the call returns true |
| `Session.RefreshUnparseableChangesNothing` | src/contexts/AuthContext.tsx:85-88 | a response whose token is missing or unparsable returns false and changes neither state nor stores |
| `Session.RefreshErrorSignsOut` | src/contexts/AuthContext.tsx:98-105 | a thrown transport error publishes the signed-out state and returns false, keeping the stored token |
| `Session.Startup` | src/contexts/AuthContext.tsx:109-126 | outside mock mode startup always ends in a state that satisfies the invariant and is not loading; when signed in the published token is the stored one; the cookie is untouched; without a refresh the stored token is untouched |
| `Session.StartupReusesStoredToken` | src/contexts/AuthContext.tsx:112-118 | an unexpired stored token that parses signs in with that same token and calls no refresh |
| `Session.StartupFallsBackToRefresh` | src/contexts/AuthContext.tsx:120-123 | any other startup calls refresh and keeps its result, publishing the signed-out state when it reports failure |
| `Session.ExpiredTokenWithoutCookieSignsOut` | src/contexts/AuthContext.tsx:111-123 | an expired stored token and no cookie end signed out, with the expired token still stored |
| `Session.MockSessionStays` | src/contexts/AuthContext.tsx:69-110 | in mock mode startup and refresh change nothing, startup calls no refresh, and refresh returns true |
| `Session.AfterLogout` | src/contexts/AuthContext.tsx:128-133 | logout empties both stores and publishes the signed-out state, whatever the state before |
| `Session.LogoutIdempotent` | src/contexts/AuthContext.tsx:128-133 | logging out twice gives the same stores as once |
| `Session.AuthProvider.constructor` | src/contexts/AuthContext.tsx:68-74 | the provider starts in the initial state for its mock flag, over the given stores |
| `Session.AuthProvider.RefreshSession` | src/contexts/AuthContext.tsx:76-107 | the in-place refresh leaves state and stores as `Refresh` describes and keeps the invariant |
| `Session.AuthProvider.InitAuth` | src/contexts/AuthContext.tsx:109-126 | the in-place startup leaves state and stores as `Startup` describes and keeps the invariant |
| `Session.AuthProvider.Logout` | src/contexts/AuthContext.tsx:128-133 | the in-place logout removes cookie and stored token and publishes the signed-out state |
| `Api.BaseUrl` | src/lib/api.ts:3-13 | a host containing `localhost` with a dot maps to `http://` + first label + `.localhost`, one without a dot to `http://demo.localhost`, any other host to `https://` + the host unchanged |
| `Api.BaseUrlScheme` | src/lib/api.ts:3-13 | the address always starts with `http://` or `https://`, and with `http://` exactly for hosts containing `localhost` |
| `Api.DevelopmentSubdomain` | src/lib/api.ts:7-10 | `<label>.localhost...` with a dot-free label resolves to `http://<label>.localhost` |
| `Api.BareLocalhostExample` | src/lib/api.ts:8-10 | `localhost` resolves to `http://demo.localhost` |
| `Api.ProductionHostExample` | src/lib/api.ts:12 | `acme.org` resolves to `https://acme.org` |
| `Api.InvitePath` | src/lib/api.ts:66-67 | `?count=N` is appended exactly when the count is present and non-zero |
| `Api.InviteCountRoundTrip` | src/lib/api.ts:67 | for a positive count the query is all digits and reads back as the count |
| `Api.ApiClient.constructor` | src/lib/api.ts:15-16 | the base address is fixed once, from the host name, when the client is built |
| `Api.ApiClient.Intercept` | src/lib/api.ts:22-28 | a non-empty stored token sets `Authorization` to `Bearer <token>`; an absent or empty one leaves the headers unchanged; nothing else in the request changes |
| `Api.ApiClient.Request` | src/lib/api.ts:15-28 | each request gets the fixed base address, credentials and the JSON content type, and the token the session slot holds at that moment |
| `Api.ApiClient.CreateInvitations` | src/lib/api.ts:66-67 | a POST of `{role}` to the invitation path, with the JSON content type and `Authorization: Bearer <token>` exactly when a non-empty token is stored |
| `Profile.FilterByRoleMembers` | src/pages/ProfilePage.tsx:54 | the filter keeps exactly the tabs whose roles include the role |
| `Profile.FilterByRoleAppend` | src/pages/ProfilePage.tsx:54 | the filter keeps table order: filtering a concatenation concatenates the filters |
| `Profile.FilterByRoleIdempotent` | src/pages/ProfilePage.tsx:54 | filtering twice equals filtering once |
| `Profile.FilterByRoleNone` | src/pages/ProfilePage.tsx:54 | a table none of whose tabs admits the role filters to nothing |
| `Profile.FilterByRole` | src/pages/ProfilePage.tsx:54 | `tabs.filter(tab => tab.roles.includes(role))`; what it keeps, in what order, is stated by the four lemmas above |
| `Profile.TabRole` | src/pages/ProfilePage.tsx:50 | no user, or a user without a role, filters as `student`; otherwise the token's role is used as it is |
| `Profile.ProfileRole` | src/pages/ProfilePage.tsx:65 | the panels' role is the server's role if sent, else the role the tabs use |
| `Profile.VisibleTabs` | src/pages/ProfilePage.tsx:54 | the visible tabs are the table entries that admit the user's role |
| `Profile.TabTableWellFormed` | src/pages/ProfilePage.tsx:34-44 | the table has nine tabs with distinct keys, and each lists only the four known roles |
| `Profile.TabKeys` | src/pages/ProfilePage.tsx:34-44 | the table's keys, in order |
| `Profile.AdminTabs` | src/pages/ProfilePage.tsx:34-44 | admin sees info, analysis, subjectAnalysis, subscription, members, invitations, in that order |
| `Profile.HeadTabsEqualAdminTabs` | src/pages/ProfilePage.tsx:35-43 | head sees the identical list |
| `Profile.TeacherTabs` | src/pages/ProfilePage.tsx:34-44 | teacher sees exactly info, myAnalysis, mySubjectAnalysis |
| `Profile.StudentTabs` | src/pages/ProfilePage.tsx:34-44 | student sees exactly info, studentAnalysis |
| `Profile.UnknownRoleSeesNothing` | src/pages/ProfilePage.tsx:34-54 | a role outside the four sees an empty list, with no fallback to student |
| `Profile.InitialTabVisible` | src/pages/ProfilePage.tsx:35-54 | the initial tab `info` is visible and first for each of the four roles |
| `Profile.ManagementTabsHidden` | src/pages/ProfilePage.tsx:41-43 | subscription, members and invitations are never visible to student or teacher |
| `Profile.Panels` | src/pages/ProfilePage.tsx:153-164 | at most one panel is rendered for any active tab, and the basic-info and analysis panels receive the profile role |
| `Profile.OnePanelPerTab` | src/pages/ProfilePage.tsx:153-164 | with the profile loaded, each table key renders exactly one panel and any other key none |
| `Profile.AnalysisTabsSharePanel` | src/pages/ProfilePage.tsx:156-158 | analysis, myAnalysis and studentAnalysis all render the general-analysis panel with the profile role |
| `Scenarios.LogoutThenRequest` | src/lib/api.ts:22-28 | after logout a request carries no `Authorization` header |
| `Scenarios.RequestAfterRefresh` | src/lib/api.ts:15-28 | a request after a successful refresh carries `Bearer` and the new token, at the same base address as the request before it |
| `Scenarios.StaleTokenAfterFailedRefresh` | src/contexts/AuthContext.tsx:98-105 | a refresh that throws signs out, yet the previously stored token is still sent on the next request |

## Left out

- The browser primitives `atob`, `decodeURIComponent` and `JSON.parse` are abstract fields of `Codec`; `Date.now` is the parameter `now`; the axios refresh post is the parameter `exchange`; `window.location.hostname` is the client's constructor argument; `sessionStorage` and js-cookie are the `SessionStorage` and `CookieJar` objects, one slot each.
- The JSON payload is read only through the four properties the code uses; a non-object value reads as all properties missing. Property values of other JavaScript types than those declared in `Payload` (a numeric role, a string user id) are not modelled.
- `IsTokenExpired`: `exp` is modelled as an integer number of seconds; fractional values and floating-point rounding of `exp*1000` are not modelled.
- `InvitePath`: the count is an integer printed in plain decimal; JavaScript's exponent notation from 10^21 on, fractional counts and `NaN` (falsy, so no query) are not modelled.
- Asynchrony: each transition is one atomic step; interleavings of an awaited refresh with other events, and the React hooks plumbing (`useCallback`, `useEffect`, `useAuth` outside a provider), are not modelled.
- The navigation to `/` in `logout` (`window.location.href`) is not modelled.
- Exceptions from `sessionStorage.setItem` (a full quota) are not modelled.
- Request configuration is reduced to method, base address, path, body, credentials flag and headers; axios's own default headers and header merging are not modelled, nor the other endpoint paths, which are fixed strings.
- The tab icons and label translations, the profile loading spinner and error retry (src/pages/ProfilePage.tsx:137-148), and the `profileData` the panels receive are presentation and are not modelled; the panel dispatch keeps only which panel is shown and the role it is given.
- The rendering components, the translation table, the mock fixture data and the tenant hook are presentation over this core and are not modelled.
- The code verifies no token signature, so the model has none.
