# GitHub Star Organizer — client core in Dafny

This project models the part of the GitHub Star Organizer web client that
decides who may do what, what is sent to the server, and what is cached. It
covers:

- **The session store** (`src/stores/auth.ts`).
  - Modelled in `auth_store.dfy` and `token_codec.dfy`.
  - The access token is mirrored in local storage.
  - A refresh timer is armed from the token's `exp` claim.
  - Concurrent refresh calls share one request.
  - Covers initialisation, login, logout and password change.
- **The API client's authorization policy** (`src/api/http.ts`).
  - Modelled in `http.dfy`.
  - The request interceptor attaches the bearer header.
  - The response-error interceptor chooses among a message, the failure callback, and one refresh-and-retry.
- **Navigation control** (`src/router/index.ts`).
  - Modelled in `router.dfy`.
  - The route table, page titles, the role check and the before-each guard.
  - Also the session-failure callback installed in `src/main.ts`.
- **The project and tag request builders** (`src/api/projects.ts`, `src/api/tags.ts`).
  - Modelled in `projects_api.dfy`, `project_records.dfy` and `tags_api.dfy`.
  - The ordered search-parameter list of the project list request.
  - The cleaning of project records and of the language list received from the server.
  - The query records of the tag list and tag detail requests.
- **The project queries** (`src/queries/projects.ts`).
  - Modelled in `project_queries.dfy`.
  - The canonical filters that key the list cache: sorted arrays, null and empty bounds dropped.
  - The cache updates after a project update or an AI summary run.
- **The theme preference store** (`src/stores/theme.ts`).
  - Modelled in `theme.dfy`.
  - The initial light/dark mode, its changes, and the invariant that the document root and local storage always show the mode.

`js.dfy` holds the JavaScript semantics the other modules share:

- values and their truthiness;
- `String(v)`;
- `split` on one character;
- `trim` and the control-character replacement.

**Modelling conventions**

- Awaited calls become parameters, for example the outcome of the login request or of the refresh request.
- Where the order of effects matters, the stores record the requests issued and the messages shown as sequences.
- Local storage is a map.
- The decoding of the token payload (`atob` and `JSON.parse`) is a decoder function passed in.

**The refresh lead time follows the code.** The refresh timer's lead time is
implemented as "one margin when more than a margin is left, otherwise half
the time left but at least one second" (`src/stores/auth.ts:90-91`), and the
model follows that code. `TokenCodec.LeadTimeVersusMinFormula` compares this
rule with `min(margin, max(ttl/2, 1s))`: the two differ for tokens with
between 60 and 120 seconds left, where the code refreshes earlier.

## Model

| member | source | states |
|---|---|---|
| Js.Split | src/api/projects.ts:155 | `split(':')` never yields an empty list; no piece holds the separator; a text without separator is a single piece; otherwise the first piece is the text before the first separator |
| Js.SplitJoin | src/api/projects.ts:155 | joining the pieces with the separator gives the text back: splitting loses nothing |
| Js.ReplaceControl | src/api/projects.ts:28 | every character in U+0000–U+001F or U+007F becomes a space, every other character is kept, the length is kept |
| Js.TrimSpec | src/api/projects.ts:50 | `trim()` keeps the slice between two all-whitespace margins, and what it keeps neither starts nor ends with whitespace |
| Js.TrimIdempotent | src/api/projects.ts:50 | trimming twice is trimming once |
| Js.Sanitize | src/api/projects.ts:50 | the sanitised text holds no control character and has nothing left to trim |
| Js.SanitizeFixedPoint | src/api/projects.ts:49-55 | sanitised text is clean; sanitising leaves a text unchanged exactly when it is already clean; sanitising twice is sanitising once |
| TokenCodec.StandardAlphabetSpec | src/stores/auth.ts:20 | the URL-safe alphabet is mapped back: `-` becomes `+`, `_` becomes `/`, every other character and the length are kept, and no `-` or `_` is left |
| TokenCodec.PaddingLength | src/stores/auth.ts:21 | at most three `=` are added, and they bring the length to a multiple of four; none are added to a length already a multiple of four |
| TokenCodec.Padded | src/stores/auth.ts:22 | the padded text starts with the segment, continues with `=` only, and has a length that is a multiple of four |
| TokenCodec.GetTokenExpiresAt | src/stores/auth.ts:17-32 | a token without a `.` or a runtime without `atob` has no expiry, and a known expiry is a whole number of seconds in milliseconds; `GetTokenExpiresAtSpec` gives the full condition |
| TokenCodec.GetTokenExpiresAtSpec | src/stores/auth.ts:17-32 | the expiry is known exactly when the token has a second segment, a decoder exists, and decoding yields a numeric `exp`; it is then `exp` seconds in milliseconds |
| TokenCodec.DelayBounds | src/stores/auth.ts:81-92 | an expired token is refreshed at once; otherwise the refresh fires before expiry, at most one margin before it, and at least one second before it (or at once when less is left); long-lived tokens refresh exactly one margin early, short ones halfway |
| TokenCodec.LeadTimeVersusMinFormula | src/stores/auth.ts:90-91 | the implemented lead time is never shorter than `min(margin, max(ttl/2, 1s))`, equals it outside (60 s, 120 s), and is strictly longer inside that window |
| TokenCodec.ArmedDelay | src/stores/auth.ts:77-92 | no timer is armed for a missing or empty token; `ArmedDelaySpec` gives the full condition and the delay |
| TokenCodec.ArmedDelaySpec | src/stores/auth.ts:74-97 | a timer is armed exactly for a truthy token whose expiry is known and non-zero, and it fires before that expiry |
| Auth.PersistRoundTrip | src/stores/auth.ts:34-46 | reading back the persisted token gives the token when it is truthy, and nothing otherwise; other storage keys are untouched |
| Auth.AuthStore.IsAuthenticated | src/stores/auth.ts:59 | signed in exactly when the token is a non-empty string |
| Auth.AuthStore.constructor | src/stores/auth.ts:51-57 | the store starts with the stored token, no user, not ready, no timer and no pending refresh |
| Auth.AuthStore.CancelScheduledRefresh | src/stores/auth.ts:65-72 | no timer is armed afterwards; nothing else changes |
| Auth.AuthStore.ScheduleAccessTokenRefresh | src/stores/auth.ts:74-97 | the previous timer is cancelled and a new one armed exactly as `ArmedDelay` says |
| Auth.AuthStore.SetToken | src/stores/auth.ts:99-103 | the token is set, persisted and rescheduled, keeping the storage invariant |
| Auth.AuthStore.ClearAuthState | src/stores/auth.ts:105-108 | no token, no stored token, no timer and no user afterwards |
| Auth.AuthStore.FetchMe | src/stores/auth.ts:110-114 | one profile request; a profile that arrives becomes the user |
| Auth.AuthStore.Initialize | src/stores/auth.ts:116-128 | nothing happens once ready; without a token no request is made and the token, user, timer and storage are untouched; with one the timer is armed and the profile fetched, and a failed fetch clears the session; the store ends ready |
| Auth.AuthStore.Login | src/stores/auth.ts:130-144 | a failed login request leaves the token, user, storage and timer as they were and reports the failure; a token obtained is stored and scheduled even when the profile fetch then fails; success reports success and returns the user; loading ends false |
| Auth.AuthStore.RefreshAccessToken | src/stores/auth.ts:146-163 | while a refresh is pending the same promise is returned and no request issued; otherwise exactly one refresh request is issued |
| Auth.AuthStore.SettleRefresh | src/stores/auth.ts:150-160 | a refreshed token is set, persisted and its timer re-armed; a failed refresh clears the session; either way the pending promise is forgotten and its outcome recorded; messages, flags and requests are untouched |
| Auth.AuthStore.FireTimer | src/stores/auth.ts:83-86 | only the armed timer fires; it disarms itself and starts (or joins) a refresh; the token, user, storage, flags and recorded outcomes are untouched |
| Auth.AuthStore.Logout | src/stores/auth.ts:165-178 | one logout request, then the session is cleared whether or not the request succeeded; messages only when not silent |
| Auth.AuthStore.ChangePassword | src/stores/auth.ts:180-190 | success logs out silently and returns true; failure reports the error's message (or the default) and rethrows, leaving the session; the flags and the refresh promise are untouched either way |
| Auth.ConcurrentRefreshSharesOneCall | src/stores/auth.ts:146-160 | two refresh calls before the first settles issue one request between them, hold the same promise and both observe the one outcome it settles with |
| Auth.InitializeTwice | src/stores/auth.ts:116-117 | initialising twice fetches the profile at most once |
| Http.AttachAuthorization | src/api/http.ts:22-30 | `Authorization: Bearer <token>` is set exactly for a truthy token on a request other than the refresh call; otherwise the headers are unchanged |
| Http.ErrorText | src/api/http.ts:69-74 | the message shown is the response's message when truthy, else the error's own message when non-empty, else the default text |
| Http.Decide | src/api/http.ts:32-78 | one network message and the original error without a response; a refresh exactly for a first 401 off the refresh call; at most one message; a retry exactly after a refresh giving a truthy token, carrying that token; a throwing refresh rejects with its own error after the callback; a 400 only calls the callback |
| Http.RetriedAtMostOnce | src/api/http.ts:50-52 | a request already marked as retried never triggers another refresh or retry |
| Http.CallbackCases | src/api/http.ts:41-66 | the failure callback runs exactly for a 400 and for a 401 that did not end in a retry, when one was supplied |
| Http.MessageText | src/api/http.ts:69-75 | when a message is shown it is the only effect, and its text is the chosen error text |
| Http.OnResponseError | src/api/http.ts:32-78 | the interceptor performs the decision: it marks the request as retried when it refreshes and installs the new bearer header only when it retries |
| Http.RepeatedUnauthorized | src/api/http.ts:50-58 | after a first 401 that refreshed, a second 401 on the same request neither refreshes nor retries |
| Router.FindNamed | src/router/index.ts:9-123 | the route found carries the name asked for; none is found only when no route has that name |
| Router.ResolveTitle | src/router/index.ts:132-134 | a truthy page title gives `<title> · GitHub Star Organizer`, anything else the bare application name |
| Router.ResolveTitleInjective | src/router/index.ts:132-134 | every page title ends with the application name, and different page titles give different document titles |
| Router.HasRole | src/router/index.ts:136-140 | no roles or an empty role list admit everyone; otherwise the user must have a role and it must be listed |
| Router.Guard | src/router/index.ts:147-168 | a signed-in user is sent from the login page to the project list; a route needing a session sends a visitor to the login page remembering the path; a missing role is reported and sent to the project list; otherwise the navigation proceeds — with both directions of each case |
| Router.AdminRoutesRequireAdmin | src/router/index.ts:63-110 | the routes under `/admin` are exactly the routes that admit only administrators, and they all require a session |
| Router.LoginReachableSignedOut | src/router/index.ts:10-21 | the login route exists and a visitor without a session may always enter it |
| Router.RedirectsSettle | src/router/index.ts:147-168 | every redirect the guard issues from a route of the table lands on a route the same session may enter |
| Router.OnRefreshFailed | src/main.ts:23-29 | the session is cleared as `clearAuthState` does (token, user and timer gone, the storage key removed) and nothing else in the store changes: requests, messages, flags and the pending refresh are kept; off the login page the user is sent to the login page remembering the current path, and that page admits them |
| ProjectsApi.WireNameRoundTrip | src/api/projects.ts:79-101 | the name on the wire identifies the key, except that a remaining field named `orderBy` or `orderDirection` shares its name with the ordering pair, since those two are not taken out of the query |
| ProjectsApi.SectionPlacement | src/api/projects.ts:103-162 | the sections are sent in their fixed order: in the list of the first sections (all of them when that is every section, the whole parameter list), each section occupies the positions right after the sections before it, so its parameters precede those of every later section |
| ProjectsApi.BuildQueryParams | src/api/projects.ts:78-163 | the parameters appended step by step are the specified section-by-section list |
| ProjectsApi.AppendOrder | src/api/projects.ts:154-160 | the ordering pair is appended for a truthy sort with a non-empty field, the direction defaulting to `asc` |
| ProjectsApi.AppendRest | src/api/projects.ts:144-152 | every remaining field is appended in order, an array one element at a time |
| ProjectsApi.AppendEach | src/api/projects.ts:117-131 | one `append` per element, in order |
| ProjectsApi.GetAllAppend | src/api/projects.ts:103-107 | reading a key off two appended lists gives the first list's values followed by the second's |
| ProjectsApi.GetAllEmit | src/api/projects.ts:104-107 | `append` of null or undefined adds nothing; any other value is added under its own key only |
| ProjectsApi.QueryParamsByKey | src/api/projects.ts:78-163 | under every key the search parameters carry exactly the expected values in order: the paging, keyword and range fields when not nullish, `language` only without a non-empty `languages`, every array element, every remaining field, and the ordering pair only for a usable sort |
| ProjectRecords.TextOrNull | src/api/projects.ts:50-51 | a summary that sanitises to nothing becomes null; otherwise it is exactly the sanitised text, clean and non-empty |
| ProjectRecords.SanitizeIfString | src/api/projects.ts:61-63 | a string becomes exactly its sanitised text; other values are kept |
| ProjectRecords.CleanTag | src/api/projects.ts:58-68 | the tag name is sanitised when a string; a string description that sanitises to nothing and a missing description become null; other fields are kept |
| ProjectRecords.NormalizeProjectSummary | src/api/projects.ts:46-76 | the four fields are reassigned in turn, giving the cleaned record |
| ProjectRecords.NormalizedSpec | src/api/projects.ts:46-76 | cleaning keeps every other field, the array shapes and lengths and the tags' other fields, and produces a clean record |
| ProjectRecords.NormalizedIdempotent | src/api/projects.ts:46-76 | a clean record is left as it is, so cleaning twice is cleaning once |
| ProjectRecords.ListProjectLanguages | src/api/projects.ts:177-186 | an array keeps its length, each string element becomes exactly its sanitised text, other elements are kept; anything but an array gives the empty list |
| TagsApi.BuildTagQueryParams | src/api/tags.ts:13-27 | `page`, `pageSize` and `keyword` are sent exactly when truthy, `archived` exactly when defined, the ordering pair exactly for a truthy sort with a non-empty field (direction defaulting to `desc`), and nothing else |
| TagsApi.SortDirectionDefaults | src/api/tags.ts:20 | a sort without a direction is descending for tags and ascending for projects; with a direction both send the same pair |
| TagsApi.TagDetailParams | src/api/tags.ts:40-43 | each paging field is sent exactly when given and truthy, and nothing else |
| ProjectQueries.Insert | src/queries/projects.ts:24 | inserting adds exactly one occurrence of the element |
| ProjectQueries.SortedCopy | src/queries/projects.ts:24-25 | the copy holds the same elements as the array, as often, and has its length |
| ProjectQueries.SortedCopySorted | src/queries/projects.ts:24-25 | the copy is in ascending text order |
| ProjectQueries.SortedCopyOfSorted | src/queries/projects.ts:24-25 | an array already in order is copied as it is |
| ProjectQueries.SortedUnique | src/queries/projects.ts:24-25 | two ordered arrays of strings holding the same strings are equal |
| ProjectQueries.SortedCopyOrderInsensitive | src/queries/projects.ts:24-25 | the sorted copy depends only on which strings the array holds, not on their order |
| ProjectQueries.NormalizeProjectFiltersSpec | src/queries/projects.ts:21-37 | arrays become sorted copies with the same elements, or undefined when empty or absent; numeric bounds lose null and keep 0; date bounds lose every falsy value, the empty string included; every other filter is kept |
| ProjectQueries.NormalizeProjectFiltersIdempotent | src/queries/projects.ts:21-37 | the canonical filters are their own canonical form |
| ProjectQueries.NormalizeOrderInsensitive | src/queries/projects.ts:21-25 | filters differing only in the order of their tag names and languages give the same list query key |
| ProjectQueries.ReplaceUpdated | src/queries/projects.ts:81-90 | an absent page stays absent; the paging fields and the length are kept; entries with the updated id become the updated record, the others are kept |
| ProjectQueries.ReplaceUpdatedSpec | src/queries/projects.ts:81-90 | every entry keeps its id, every entry with the updated id is the updated record, and applying the update again changes nothing |
| ProjectQueries.SummaryField | src/queries/projects.ts:136-141 | an undefined result keeps the current summary; any other result, null included, is written as it is |
| ProjectQueries.WithSummary | src/queries/projects.ts:134-142 | only the two summaries change, each only when the result defines it |
| ProjectQueries.PatchSummaryDetail | src/queries/projects.ts:131-144 | an absent detail record stays absent; a present one receives the summaries |
| ProjectQueries.PatchSummaryList | src/queries/projects.ts:146-165 | an absent page stays absent; entries with the project's id receive the summaries; the others and the paging fields are kept |
| ProjectQueries.PatchSummaryListIdempotent | src/queries/projects.ts:146-165 | applying the same summary result twice is applying it once |
| ProjectQueries.OnUpdateSuccess | src/queries/projects.ts:74-91 | the detail cache of the id holds the updated record, other detail records are kept, and every cached list page is updated |
| ProjectQueries.OnSummarySuccess | src/queries/projects.ts:128-165 | no detail record is created; the project's detail record receives the summaries, the others are kept, and every cached list page is patched |
| Theme.ParseMode | src/stores/theme.ts:15 | only exactly `light` or `dark` names a mode, and it names the mode whose text it is |
| Theme.ResolveInitialTheme | src/stores/theme.ts:8-27 | light without a window; a stored `light` or `dark` wins; otherwise dark exactly when the system prefers dark |
| Theme.SavedModeRestored | src/stores/theme.ts:14-16 | a saved mode is restored as it was saved, whatever the system prefers |
| Theme.Toggled | src/stores/theme.ts:52 | toggling always changes the mode |
| Theme.ThemeStore.IsDark | src/stores/theme.ts:45 | dark exactly when the mode is dark |
| Theme.ThemeStore.constructor | src/stores/theme.ts:43-69 | the initial mode is resolved from storage and the system preference, then applied to the root and saved |
| Theme.ThemeStore.Apply | src/stores/theme.ts:29-66 | the `dark` class is present exactly in dark mode, `colorScheme` is the mode's text, and the mode is saved when storage is available |
| Theme.ThemeStore.SetMode | src/stores/theme.ts:47-49 | the mode becomes exactly the value given, and the root and storage show it |
| Theme.ThemeStore.ToggleMode | src/stores/theme.ts:51-53 | the mode flips, `isDark` flips, and the root and storage show the new mode |
| Theme.ThemeStore.ToggleTwice | src/stores/theme.ts:51-53 | toggling twice restores the mode, the root and the saved preference |
| Theme.Reload | src/stores/theme.ts:8-63 | a store created from the storage a previous store saved starts in that store's mode |

## Left out

- Floating point: numbers are integers. `NaN`, fractional `exp` claims and `Math.floor` of a fractional half-life are not modelled.
- Base64 decoding and `JSON.parse` of the token payload are a decoder function parameter. A decoder that throws and one that yields a non-numeric `exp` are both modelled.
- `safeParseJson` and `normalizePayload`: responses sent as text are not parsed. Records are taken as already parsed values.
- Server-side rendering branches (`typeof window === 'undefined'`, `typeof document === 'undefined'`) are left out of the session and theme stores, which are modelled in a browser. `ResolveInitialTheme` keeps its no-window case.
- Asynchrony and interleaving: each awaited call is a parameter holding its outcome. Concurrent refreshes are modelled as two calls before one settlement.
- The vue-query and axios machinery (query keys as hashing, `setQueriesData` matching, re-dispatching a request) is left out. Only the updater functions and the decisions are modelled.
- The loading bar, the `afterEach` title assignment and `console.warn` are not modelled. `ResolveTitle` is modelled as a function.
- Vue's `watch` runs its callback after the change in the next tick; the theme store applies it at once.
- The notices shown by the mutations in `src/queries/projects.ts` (success and error messages) are not modelled.
- `Object.entries(rest)` is given as a sequence of name and value pairs, in the order the engine would enumerate them.
- ProjectsApi.ProjectListQuery: the query type does not require its remaining fields to be well formed (`ProjectsApi.RestNamesWellFormed`: no field taken out of the query, no name twice), which `Object.entries` guarantees; the parameter lists are specified for any remaining fields.
- `window.setTimeout` runs a callback at once when its delay exceeds 2^31-1 ms. For tokens living longer than about 24.8 days the real timer therefore fires at once, not one margin before expiry as `TokenCodec.DelayBounds` states of the delay computed.
- The request headers are a map from name to value. A missing header object is the empty map.
- ProjectsApi.Param: the value text sent is `String(value)` (`Js.ToJsString`). The parameter list keeps the value itself, not its text.
- ProjectQueries.SortedCopy: the default `sort()` compares UTF-16 code units. The model compares Unicode scalar values, which differs only between astral characters and characters from U+E000 to U+FFFF. `undefined` elements are ordered by their text instead of being moved to the end.
- ProjectQueries.NormalizeOrderInsensitive: only filter arrays holding strings (their declared type) are covered. For other element types, JavaScript's stable sort keeps the order of values with equal text.
- ProjectRecords.CleanTag: every tag element is taken to be an object, as the declared type says.
- Auth.AuthStore.Valid: the count of refresh requests issued is not part of the invariant. `Auth.ConcurrentRefreshSharesOneCall` states it for two calls.
- Theme.ThemeStore: a storage that refuses access refuses both reading and writing. A storage that allows reading but refuses writing is not modelled.
