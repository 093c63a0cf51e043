# Inventory admin client: session, request pipeline, guards and pagination in Dafny

This project models the decision logic of a single-page admin client for an inventory backend. The client is written in React and TypeScript over a REST API. The model covers:

- **Session store** (`AuthStore`). This is the zustand store with two operations. `setSession` merges its argument shallowly into the state. `logout` clears `token`, `refreshToken` and `user`, then removes the persisted `auth-storage` entry. Persistence is reduced to one bit: whether that entry exists.
- **Request pipeline** (`Client`). These are the axios interceptors:
  - The request interceptor attaches `Bearer <token>`.
  - The response error interceptor reacts to a 401 in one of two ways. If there is a refresh token, it calls `POST /auth/refresh`, stores the new token and retries the request. If there is none, or the refresh fails, it logs out and assigns `/login` to `window.location.href`.

  The backend is an oracle `respond(i, config)`, the reply to the i-th request sent. `Client.Run` is the pure specification, and `Client.OnRejected` models the error interceptor. `Client.ApiClient.Request` and `Client.ApiClient.HandleError` are the imperative versions, proved equal to them. Every nested `api.request` re-enters both interceptors, and a `fuel` parameter bounds the depth of that re-entry.
- **Route guard** (`ProtectedRoute`). `Decide` is the render decision: loading, outlet, redirect to `/login`, or access denied. The class `Guard` holds the `hydrated` flag.
- **Route table** (`Routes`). The table gives the roles prop of each guard around each path. A location matches a pattern up to ASCII case and trailing slashes, as the router compares them. `Access` composes the guards from the outside in.
- **Login** (`Login`). This covers the form rule (a password of at least 6 UTF-16 code units, as JavaScript counts string length) and `onSubmit`. `onSubmit` sends `POST /auth/login` through the same pipeline, checks `access_token`, decodes it (`jwtDecode` is a parameter), stores the session with `refreshToken: null`, and then navigates to `/`.
- **Products page** (`Products`). This covers `fetchProducts`: the page clamp, the query, and the state update on success or failure. It also covers `handleFilter`, the pager conditions, and the admin-only controls.
- **Audit page** (`Audit`). This covers the admin-only gate, `fetchAudits`, and the page effect that refetches when `pagination.page` changes. It also covers `handleFilter`, and the page count `ceil(total / pageSize)` with the Previous/Next steps.

Some consequences of the code that are easy to miss, each proved in the model:
- **No bound on recovery.** The code has no retry marker. The refresh call and the retried request both go back through the same interceptors, so a repeated 401 repeats the refresh cycle. `Client.EndlessRefresh` proves that against a backend that grants every refresh but answers every other request with 401, only the depth bound ends the cycle. `Client.RefreshOfRefreshNests` proves that when the refresh call itself gets a 401, the handler refreshes again inside it, level after level.
- **A failed retry escapes.** The retried request is returned without `await`. If it fails with a status other than 401, its own error reaches the caller, with no logout (`Client.RetryFailureEscapes`).
- **setSession merges.** `setSession` merges its argument shallowly into the state instead of replacing the session, so a refresh keeps the user (`AuthStore.SetSessionWithoutUserKeepsUser`).
- **The user can outlive its token.** Nothing keeps "a user only with a token". A refresh reply without `accessToken` stores no token but keeps the user (`Client.RefreshWithoutAccessTokenKeepsUser`).
- **A null body throws.** A 2xx reply whose body is `null` makes `r.data.accessToken` (client.ts) or `res.access_token` (Login.tsx) throw. In the refresh this takes the logout branch (`Client.NullRefreshBodyLogsOut`); in login it is the error `NullBody`.

## Model

| member | source | states |
|---|---|---|
| AuthStore.Truthy | src/api/client.ts:12 | no contract: JavaScript truthiness of a `string \| null` (a non-empty string); the lemmas use it for `if (token)` and `if (!refreshToken)` |
| AuthStore.Merge | src/store/useAuthStore.ts:27 | no contract: zustand's shallow merge, which replaces token and refreshToken and keeps the user when the argument omits it; SetSessionSetsTokens and SetSessionWithoutUserKeepsUser state its properties |
| AuthStore.Step | src/store/useAuthStore.ts:27-31 | no contract: the effect of one setSession or logout call on the state and the persisted entry; LogoutClearsAll, LogoutIdempotent, SetSessionThenLogout and the Store methods are stated with it |
| AuthStore.Replay | src/store/useAuthStore.ts:27-31 | no contract: the state after a sequence of calls; ReplayReflectsLastCall and ReplayUser state its properties |
| AuthStore.Store.constructor | src/store/useAuthStore.ts:23-26 | the initial state has token null, refreshToken null, user undefined |
| AuthStore.Store.SetSession | src/store/useAuthStore.ts:27 | the new state is the shallow merge of the argument into the old state, and the entry is written through |
| AuthStore.Store.Logout | src/store/useAuthStore.ts:28-31 | the new state is empty and the persisted entry is gone |
| AuthStore.LogoutClearsAll | src/store/useAuthStore.ts:28-30 | whatever the prior state, logout leaves all three fields cleared and no entry under auth-storage |
| AuthStore.LogoutIdempotent | src/store/useAuthStore.ts:28-31 | logging out twice gives the same state as logging out once |
| AuthStore.SetSessionSetsTokens | src/store/useAuthStore.ts:27 | setSession(s) sets token and refreshToken to those of s and persists |
| AuthStore.SetSessionWithoutUserKeepsUser | src/store/useAuthStore.ts:27 | a setSession argument without a user leaves the stored user unchanged |
| AuthStore.SetSessionThenLogout | src/store/useAuthStore.ts:27-31 | setSession followed by logout always yields the empty, unpersisted state |
| AuthStore.ReplayReflectsLastCall | src/store/useAuthStore.ts:27-31 | after any non-empty sequence of calls, token and refreshToken are those of the last call, or everything is cleared if it was logout |
| AuthStore.ReplayUser | src/store/useAuthStore.ts:27-31 | after any sequence of calls, the user is the one written last (logout writes none), where a setSession without a user writes nothing |
| Client.Run | src/api/client.ts:9-40 | no contract: one `api.request` through both interceptors against the backend oracle; its properties are RunFacts, FirstRequestCarriesBearer, SuccessPassesThrough, OtherErrorsPassThrough, UnauthorizedWithoutRefreshToken, RefreshThenRetry, RefreshFailureLogsOut, RetryFailureEscapes, EndlessRefresh and RefreshOfRefreshNests, and ApiClient.Request implements it |
| Client.OnRejected | src/api/client.ts:22-39 | no contract: the response error interceptor; its properties are OnRejectedFacts, UnauthorizedIssuesRefresh and RefreshGranted, and ApiClient.HandleError implements it |
| Client.Intercept | src/api/client.ts:10-15 | with a truthy token the Authorization header becomes "Bearer " + token; no other header changes; with a null or empty token the config is untouched |
| Client.RunFacts | src/api/client.ts:9-40 | for every backend: the request log and hrefs only grow; only "/login" is ever assigned; a redirect comes only with logout and a rejection; without a logout the user and refresh token are unchanged; every result or error belongs to a request this call sent |
| Client.OnRejectedFacts | src/api/client.ts:22-39 | the same guarantees for the response error handler, whose rejection is either the original error or the error of a request it sent |
| Client.ApiClient.Request | src/api/client.ts:9-21 | the imperative call (request interceptor, send, success handler) changes the store, the backend log and the hrefs exactly as Run says, and returns Run's outcome |
| Client.ApiClient.HandleError | src/api/client.ts:22-39 | the imperative error handler changes the store, the backend log and the hrefs exactly as OnRejected says, and returns its outcome |
| Client.FirstRequestCarriesBearer | src/api/client.ts:11-14 | the first request a call sends is its config as the request interceptor leaves it |
| Client.SuccessPassesThrough | src/api/client.ts:21 | a 2xx reply is returned unchanged and nothing but the request log changes |
| Client.OtherErrorsPassThrough | src/api/client.ts:23-38 | no response, or a status other than 2xx and 401, rejects with the same error: no refresh call, no store change, no redirect |
| Client.UnauthorizedWithoutRefreshToken | src/api/client.ts:24-38 | a 401 without a refresh token sends no refresh, logs out, assigns /login and rejects the original error |
| Client.UnauthorizedIssuesRefresh | src/api/client.ts:27-29 | a 401 with a refresh token makes the next request POST /auth/refresh with body {refreshToken} |
| Client.RefreshGranted | src/api/client.ts:27-32 | inside the handler, a granted refresh stores the new access token (refresh token and user kept) and the handler answers with the retry of error.config under Bearer accessToken |
| Client.RefreshThenRetry | src/api/client.ts:29-32 | after a successful refresh, token = accessToken with refreshToken and user unchanged; the retried request carries Bearer accessToken; the caller gets the retry's result |
| Client.RefreshWithoutAccessTokenKeepsUser | src/api/client.ts:29-32 | a granted refresh whose reply lacks a string accessToken stores token null but keeps the refresh token and the user; after a successful retry the call resolves in that state |
| Client.RefreshFailureLogsOut | src/api/client.ts:29-38 | a failed refresh logs out, assigns /login, rejects the original error and sends no retry |
| Client.RetryFailureEscapes | src/api/client.ts:32-33 | a failed retry (not 401) rejects with the retry's own error, without logout or redirect |
| Client.EndlessRefresh | src/api/client.ts:29-32 | against a backend that grants every refresh and answers every other request with 401, the refresh cycle repeats until the depth bound: 2·fuel−1 requests, no redirect |
| Client.RefreshOfRefreshNests | src/api/client.ts:24-29 | against a backend that answers every request with 401, each refresh call re-enters the handler and refreshes again: fuel requests, no logout, no redirect, no store change |
| Client.NullRefreshBodyLogsOut | src/api/client.ts:29-38 | a 2xx refresh reply with a null body throws at r.data.accessToken: logout, /login assigned, the original error rejected, no retry sent |
| ProtectedRoute.Decide | src/routes/ProtectedRoute.tsx:20-47 | each of loading, outlet, redirect to /login (replace) and access denied is produced exactly under its condition on hydrated, token, path, roles and user |
| ProtectedRoute.Guard.constructor | src/routes/ProtectedRoute.tsx:11 | hydrated starts false |
| ProtectedRoute.Guard.OnMount | src/routes/ProtectedRoute.tsx:14-18 | hydrated becomes true if the store has already hydrated, and never returns to false |
| ProtectedRoute.Guard.OnFinishHydration | src/routes/ProtectedRoute.tsx:15 | the finish notification sets hydrated |
| ProtectedRoute.Guard.Render | src/routes/ProtectedRoute.tsx:20-47 | a guard renders Decide of its hydrated flag |
| ProtectedRoute.LoadingUntilHydrated | src/routes/ProtectedRoute.tsx:20-26 | before hydration neither the outlet nor a redirect is rendered |
| ProtectedRoute.DeniedRoleIsNotRedirected | src/routes/ProtectedRoute.tsx:36-45 | a role outside the list shows access denied in place, never a redirect |
| ProtectedRoute.EmptyRolesDenyEveryUser | src/routes/ProtectedRoute.tsx:36 | an empty roles list is truthy, so it denies every user object |
| Routes.Matches | src/routes/index.tsx:10-35 | no contract: a pattern matches a location when both agree after ASCII lower-casing and removing trailing slashes; Find, FindTable and CaseAndTrailingSlashIgnored are stated with it |
| Routes.Find | src/routes/index.tsx:10-35 | route lookup returns an entry of the table whose pattern matches the location up to ASCII case and trailing slashes, or none if no entry matches |
| Routes.StripSlashesRemovesOnlySlashes | src/routes/index.tsx:10-35 | stripping trailing slashes keeps a prefix that no longer ends in '/', and everything removed is '/' |
| Routes.NormalPatterns | src/routes/index.tsx:11-27 | the five patterns in normal form are /login, the empty path, /products, /users and /audit, so no two match the same location |
| Routes.FirstRefusal | src/routes/index.tsx:13-31 | the position found is the first guard whose decision is not the outlet, all guards before it render the outlet, or it is the length when all do |
| Routes.Chain | src/routes/index.tsx:13-31 | nested guards render the outlet iff every guard does; otherwise the result is the decision of the first guard that does not render the outlet |
| Routes.FindTable | src/routes/index.tsx:10-35 | a location matching /login, /, /products, /users or /audit is found at that pattern's table entry |
| Routes.CaseAndTrailingSlashIgnored | src/routes/index.tsx:10-35 | "/Users/" reaches the /users route and "/LOGIN" the /login route |
| Routes.Access | src/routes/index.tsx:10-35 | no contract: the view the router shows for a location, the guards of the matching route composed by Chain, or none; LoginAlwaysRenders, TokenOnlyPaths, UsersNeedsAdmin, AuditNeedsAdminOrOperator, NoTokenRedirectsFirst and UnknownPathsMatchNothing state its behaviour |
| Routes.LoginAlwaysRenders | src/routes/index.tsx:11 | a location matching /login is outside every guard and renders regardless of session |
| Routes.TokenOnlyPaths | src/routes/index.tsx:14-20 | locations matching / and /products render iff hydrated with a token, and redirect to /login without one |
| Routes.UsersNeedsAdmin | src/routes/index.tsx:22-25 | a location matching /users renders iff hydrated, with a token and the role admin (or no user object); another role is denied |
| Routes.AuditNeedsAdminOrOperator | src/routes/index.tsx:26-29 | a location matching /audit renders iff hydrated, with a token and role admin or operator (or no user object); another role is denied |
| Routes.NoTokenRedirectsFirst | src/routes/index.tsx:14-29 | without a token, locations matching /users and /audit redirect to /login at the outer guard, before any role check |
| Routes.UnknownPathsMatchNothing | src/routes/index.tsx:10-35 | a location that matches no pattern of the table, up to case and trailing slash, reaches no route |
| Login.Utf16Length | src/pages/Login.tsx:13 | the JavaScript length of a string lies between its character count and twice it, and equals the character count when every character is in the Basic Multilingual Plane |
| Login.FormAccepted | src/pages/Login.tsx:11-14 | no contract: the schema accepts a valid e-mail with a password of at least 6 UTF-16 code units; AstralCharactersCountTwice and Submit's first ensures are stated with it |
| Login.AstralCharactersCountTwice | src/pages/Login.tsx:13 | three emoji pass `.min(6)` and two emoji with one letter do not, since each emoji is two code units |
| Login.SessionFor | src/pages/Login.tsx:30-43 | a session exists iff the body is an object whose access_token is a non-empty string that decodes; it then holds that token, refreshToken null and the user {sub, email, role} of the claims; otherwise the error says which check failed (a null body first) |
| Login.LoginSessionCannotRefresh | src/pages/Login.tsx:43 | after a login session is stored, the first 401 logs out at once with no refresh request |
| Login.LoginPage.Submit | src/pages/Login.tsx:27-53 | a form whose password has fewer than 6 UTF-16 code units, or an invalid e-mail, sends nothing; otherwise the login request runs through the pipeline, and only a non-null body with a valid, decodable token leads to setSession and then navigate("/", replace), in that order; every other path leaves the store and trace as the request left them |
| Products.ClampedPage | src/pages/Products.tsx:42-48 | the requested page is at least 1 and at most pages when pages ≥ 1; missing or NaN gives 1; an in-range page is kept; with pages = 0 there is no upper clamp |
| Products.ClampIdempotent | src/pages/Products.tsx:42-48 | clamping a clamped page changes nothing |
| Products.NoUpperClampWithoutPages | src/pages/Products.tsx:46-48 | with pages = 0 any page of at least 1 is requested as given |
| Products.ShowPager | src/pages/Products.tsx:264 | no contract: the pager shows when not loading and pages > 1; PagerStepsAreExact is stated with it |
| Products.PreviousDisabled | src/pages/Products.tsx:267 | no contract: Previous is disabled while page ≤ 1; ProductsPage.Previous and PagerStepsAreExact are stated with it |
| Products.NextDisabled | src/pages/Products.tsx:282 | no contract: Next is disabled while page ≥ pages; ProductsPage.Next and PagerStepsAreExact are stated with it |
| Products.PagerStepsAreExact | src/pages/Products.tsx:264-289 | on a shown pager with an in-range page, enabled Previous and Next request exactly page−1 and page+1 |
| Products.ShowsAdminControls | src/pages/Products.tsx:165 | no contract: the admin controls render only for a user object whose role is admin; AdminControlsMatchUsersRoute relates it to the /users route |
| Products.AdminControlsMatchUsersRoute | src/pages/Products.tsx:165 | the import/new/edit/delete controls appear exactly for the users that /users admits with a user object |
| Products.ProductsPage.constructor | src/pages/Products.tsx:15-33 | the initial products, loading, pagination and filters |
| Products.ProductsPage.FetchProducts | src/pages/Products.tsx:42-70 | queries the clamped page with the current filters and page size; on success products and pagination come from the envelope, on failure they are unchanged; loading ends false |
| Products.ProductsPage.HandleFilter | src/pages/Products.tsx:99-102 | always fetches page 1 with the current filters and page size |
| Products.ProductsPage.Previous | src/pages/Products.tsx:266-268 | while page ≤ 1 nothing changes and no query is sent; otherwise it queries the clamped page−1 with the current filters and on success products and pagination come from the envelope; filters never change |
| Products.ProductsPage.Next | src/pages/Products.tsx:281-283 | while page ≥ pages nothing changes and no query is sent; otherwise it queries the clamped page+1 with the current filters and on success products and pagination come from the envelope; filters never change |
| Products.ProductsPage.SetFilters | src/pages/Products.tsx:119-142 | editing a filter changes only the filters |
| Audit.PageCount | src/pages/Audit.tsx:185 | no contract: `Math.ceil(total / pageSize)` for a positive page size; PageCountIsCeiling and PageCountIsUnique prove it is the ceiling |
| Audit.ShowPager | src/pages/Audit.tsx:166 | no contract: the pager shows when not loading and total > pageSize; PagerMeansSeveralPages is stated with it |
| Audit.PreviousDisabled | src/pages/Audit.tsx:169 | no contract: Previous is disabled on page 1; AuditPage.Previous is stated with it |
| Audit.NextDisabled | src/pages/Audit.tsx:189 | no contract: Next is disabled at or past the page count; AuditPage.Next is stated with it |
| Audit.PageCountIsCeiling | src/pages/Audit.tsx:185 | the page count c satisfies (c−1)·pageSize < total ≤ c·pageSize |
| Audit.PageCountIsUnique | src/pages/Audit.tsx:185 | no other integer satisfies that bound |
| Audit.PagerMeansSeveralPages | src/pages/Audit.tsx:166 | a shown pager (total > pageSize) has at least two pages |
| Audit.PreviousPage | src/pages/Audit.tsx:171-174 | Previous never goes below 1 and steps back by one above page 1 |
| Audit.NextPage | src/pages/Audit.tsx:190-197 | Next never exceeds the page count and steps forward by one below it |
| Audit.NextThenPrevious | src/pages/Audit.tsx:171-197 | Next then Previous restores p when 1 ≤ p < pageCount |
| Audit.PreviousThenNext | src/pages/Audit.tsx:171-197 | Previous then Next restores p when 1 < p ≤ pageCount |
| Audit.ShowsAuditLog | src/pages/Audit.tsx:22-28 | no contract: only a user object whose role is admin sees the log; OperatorPassesRouteButNotPage and PageGateWithinRouteGate relate it to the /audit route |
| Audit.OperatorPassesRouteButNotPage | src/pages/Audit.tsx:22-28 | an operator passes the /audit route guard but the page shows the permission message |
| Audit.PageGateWithinRouteGate | src/pages/Audit.tsx:22-28 | whoever sees the audit log has passed the /audit route guard |
| Audit.AuditPage.constructor | src/pages/Audit.tsx:11-20 | the initial records, loading, filters and pagination |
| Audit.AuditPage.FetchAudits | src/pages/Audit.tsx:30-45 | queries the given page with the current filters and page size; on success records = items and pagination = {total, page, pageSize} (pages ignored), on failure unchanged; loading ends false |
| Audit.AuditPage.RunPageEffect | src/pages/Audit.tsx:47-49 | a change of page since the last run fetches that page, and on success records and pagination come from the envelope; an unchanged page fetches nothing and changes nothing |
| Audit.AuditPage.HandleFilter | src/pages/Audit.tsx:51-54 | resets the page to 1 and fetches page 1 with the current filters; on success records and pagination come from the envelope |
| Audit.AuditPage.Previous | src/pages/Audit.tsx:168-175 | does nothing on page 1, otherwise sets page := max(1, page−1) |
| Audit.AuditPage.Next | src/pages/Audit.tsx:188-198 | does nothing at or past the page count, otherwise sets page := min(pageCount, page+1) |
| Audit.AuditPage.SetFilters | src/pages/Audit.tsx:66-96 | editing a filter changes only the filters |

## Left out

- Rendering: JSX, styling, toasts, the confirmToast dialog and PageHeader's date are not modelled. Login's error messages, the loading spinner and the category list (`loadCategories`) are also left out.
- Resource wrappers: the one-line axios calls in `products.api.ts`, `audit.api.ts`, `users.api.ts`, `dashboard.api.ts` and `auth.api.ts` are not modelled. The Products and Audit pages see the backend as an oracle `server(query)`, not through `Client.Run`. Only Login is composed with the pipeline.
- CSV export and import, the product and user form modals, `ImportResultModal`, Dashboard, Users and AppLayout are not modelled. They are plumbing or display.
- After a delete, an import or a form save, the Products page calls `fetchProducts(pagination.page)`, which is `FetchProducts(Page(page))`. Those handlers themselves are not modelled.
- jwtDecode is the parameter `decode` (None when it throws). zod's e-mail check is the boolean input `emailValid`.
- Persistence and hydration: the persist middleware and localStorage are reduced to a presence bit. Rehydrating a stored session into the store at startup is not modelled, so the store always starts empty.
- Guard state: `Routes.Access` evaluates the nested guards with one shared `hydrated` flag. A freshly mounted nested guard renders the loading screen for one frame before its mount effect runs; the model does not show that frame.
- Concurrency: one request at a time. Concurrent 401s, and the event loop's order of store writes, are not modelled. The fetch methods run each call to completion, so the interval while `loading` is true is not visible.
- Navigation: `window.location.href` assignments are recorded in `ApiClient.hrefs`. Login's `navigate` is recorded in `LoginPage.trace`. Nothing is actually navigated.
- Client.Run: the `OutOfFuel` outcome comes from the depth bound of the model. The source has no bound, and a call that runs out of fuel in the model would still be pending in the source.
- Client.AccessTokenOf: a refresh reply whose `accessToken` is not a string counts as missing. It is rendered as "undefined", whereas JavaScript would render the value itself.
- Audit.PageCount: the page size is a positive integer. A server-sent page size of 0 or less would make JavaScript compute Infinity or NaN; that case is not modelled.
- Products.ClampedPage: page arguments are integers or NaN. Fractional pages, and the `Number(...)` coercions of the envelope fields and of `price`, are float behaviour and are not modelled.
- Axios configuration: default headers start as an empty map, and the base URL is not modelled.
- Audit: the hook-ordering problem (an early return before `useEffect`) is a React rule issue, not model logic. The model treats the Audit page class as the page rendered for an admin.
- Routes.Matches: the router's matching is modelled as ASCII case folding and removal of trailing slashes. Percent-decoding of the location, non-ASCII case folding and dynamic segments (the table has none) are not modelled.
- Client.Data: a reply body is `null` or an object. A body that is another JSON value (a number, a string, an array) is read as an object without fields, which gives the same outcome for the `accessToken` and `access_token` reads.
