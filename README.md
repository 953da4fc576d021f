# Quiz Arena admin dashboard — a verified model of its core

This project models the part of the Quiz Arena admin dashboard (a React
single-page app) that decides who sees what, and what is sent to the server:

- the **auth token store** (`src/utils/authToken.js`): one browser-storage
  entry under the key `authToken`, with read, write, clear, presence and
  `Authorization` header helpers. Storage that is missing, or that throws,
  is an explicit part of the store's state.
- the **route guards and route table** (`ProtectedRoute`, `PublicRoute`,
  `RoutesComponent`). React Router's default matching is modelled: ASCII
  letters compare without case, and trailing slashes are ignored.
- the **login form** (`src/Pages/Login.jsx`). It writes the token straight
  into storage and navigates to `/`.
- the three **list pages**: contact requests, dashboard users, and the
  tabbed user list. Each has a fetch with its loading and error states and a
  case-insensitive search; contact requests also take a status update in place.
- the **quiz moderation page** (`src/Pages/QuizManagement.jsx`): the status
  filter, search, approve, reject with a trimmed reason of at least ten
  UTF-16 code units, the review modal and the question preview.
- the **admin service** (`src/service/AdminService.js`): headers, error
  settling, query strings, default parameters and the URL, verb and body of
  each of its eighteen calls. The **endpoint table** (`src/config/ApiUrl.js`)
  is modelled too.

JavaScript semantics are written out where the code leans on them. That
covers truthiness, `String(x)`, `a || b`, default parameters (which apply
only to `undefined`) and `?? null`. It also covers `toLowerCase` and
`includes`, the whitespace set of `String.prototype.trim`, and
`Array.prototype.filter`. Property lookup on an object literal includes the
members every object inherits from `Object.prototype` (section 20.1.3 of
ECMA-262, and the legacy accessors of Annex B.2.2).

Components keep their state in React hooks. Each becomes a Dafny `class`
whose fields are the hook variables; every setter call becomes an
assignment. An `async` handler is split at its `await` into `Begin…` and
`Complete…` methods. What the `await` returned is an `Outcome` parameter:
the resolved JSON body, or `Rejected` when the call threw. A method without
the prefix runs both halves back to back. An effect that refetches when its
dependency changes becomes a `refetch` result, or the next call to make.

Some behaviour of the code that the model makes explicit:

- `hasAuthToken` is `Boolean(getAuthToken())`, so an empty stored token
  counts as logged out (`RouteGuards.EmptyTokenIsRedirected`).
- The header's States, Quizes and AI-Quiz links
  (`src/Components/Header.jsx:55-71`) point at `/states`, `/quizes` and
  `/ ai-quiz`. The route table has no such paths, so they reach `NotFound`
  (`Routes.HeaderLinksAreNotFound`). The quiz moderation page is not
  reachable by any route.
- Login does not go through the token store's `setAuthToken`; it calls
  `localStorage.setItem` itself. A success answer without a token therefore
  stores the string `"undefined"` and still navigates
  (`Scenarios.LoginWithoutToken`). A success answer with an empty token
  navigates to `/`, which bounces back to `/login`
  (`Scenarios.LoginThenLand`).
- The admin service adds `Authorization` only when the stored token is
  truthy.
- The rejection reason is measured with `.length`, in UTF-16 code units,
  so five emoji make an accepted reason
  (`QuizManagementPage.AstralReasonAccepted`).

## Model

| member | source | states |
|---|---|---|
| JsValues.Stringify | src/utils/authToken.js:21 | `String(x)`: a string as it is, `undefined` and `null` as the words |
| JsValues.OrElse | src/Pages/Login.jsx:32 | `x \|\| fallback`: the value when it is truthy, the fallback for `undefined`, `null` and `""` |
| JsValues.WithDefault | src/service/AdminService.js:40 | a default parameter replaces `undefined` only; `null` and `""` pass through |
| JsValues.FromNullable | src/utils/authToken.js:9 | `raw ?? null`: a stored string as it is, no entry as `null`, never `undefined` |
| JsValues.OwnProperty | src/service/AdminService.js:161-169 | an own property is found exactly when the table has an entry with that key, and the value found belongs to such an entry |
| JsValues.ReadProperty | src/service/AdminService.js:170 | `obj[key]` finds an own property if there is one, else an inherited `Object.prototype` member exactly when the key names one, else nothing |
| JsValues.ReadPropertyOr | src/service/AdminService.js:170 | `obj[key] \|\| fallback` yields a member function exactly when the lookup reaches the prototype |
| JsValues.OwnPropertyOr | src/service/AdminService.js:170 | the own-property lookup: a non-empty own value, or the fallback when the key is not an own property |
| JsValues.ReadsAgreeOffPrototype | src/service/AdminService.js:170 | for keys that are own properties or name no inherited member, the two lookups give the same text |
| Strings.Lower | src/Pages/ContactList.jsx:97 | `toLowerCase` on ASCII: same length, each character lowered by itself |
| Strings.EmptyNeedleMatches | src/Pages/ContactList.jsx:95-100 | every string includes `""`, folded or not |
| Strings.VerbatimMatches | src/Pages/ContactList.jsx:97 | a term found verbatim is also found case-insensitively |
| Strings.FoldedIgnoresTermCase | src/Pages/ContactList.jsx:97 | lowering the search term first does not change which fields match |
| Strings.Trim | src/Pages/QuizManagement.jsx:62 | `trim()`: the result sits right after the leading whitespace, does not start or end with whitespace, and only whitespace surrounds it |
| Strings.TrimEmptyIffBlank | src/Pages/QuizManagement.jsx:62 | the trimmed string is empty exactly when every character is whitespace |
| Strings.CodeUnits | src/Pages/QuizManagement.jsx:675 | one UTF-16 code unit for a character of the Basic Multilingual Plane, two for any other |
| Strings.Utf16Length | src/Pages/QuizManagement.jsx:675 | `s.length`: between the number of characters and twice it, zero exactly for the empty string, and equal to the number of characters when all are in the Basic Multilingual Plane |
| Strings.Utf16LengthAppend | src/Pages/QuizManagement.jsx:675 | the length of a concatenation is the sum of the lengths |
| Lists.Filter | src/Pages/ContactList.jsx:95-100 | `Array.prototype.filter`: no longer than the input, and every kept element satisfies the predicate |
| Lists.FilterMembers | src/Pages/ContactList.jsx:95-100 | the kept elements come from the input, and every input element that satisfies the predicate is kept |
| Lists.FilterIsSubsequence | src/Pages/ContactList.jsx:95-100 | the result keeps the input's order (it is a subsequence) |
| Lists.FilterCounts | src/Pages/ContactList.jsx:95-100 | every passing value occurs in the result as often as in the input, and a failing value not at all |
| Lists.FilterAppend | src/Pages/ContactList.jsx:95-100 | filtering a concatenation filters each part |
| Lists.FilterKeepsAll | src/Pages/ContactList.jsx:95-100 | when every element satisfies the predicate, the list comes back unchanged |
| Lists.FilterIdempotent | src/Pages/ContactList.jsx:95-100 | filtering twice is filtering once |
| Records.PanelFor | src/Pages/ContactList.jsx:154-162 | the spinner exactly while loading, the error panel with the error text exactly when not loading and the error is truthy, the content otherwise |
| AuthToken.TokenStore.constructor | src/utils/authToken.js:3 | the store starts from the given availability, failure mode and entry |
| AuthToken.TokenStore.GetAuthToken | src/utils/authToken.js:5-13 | the stored entry when storage is present and readable, `null` otherwise |
| AuthToken.TokenStore.HasAuthToken | src/utils/authToken.js:31 | true exactly when a non-empty token can be read |
| AuthToken.TokenStore.AuthHeader | src/utils/authToken.js:33-36 | an `Authorization: Bearer <token>` header exactly when a token is present, no header otherwise |
| AuthToken.TokenStore.SetItem | src/Pages/Login.jsx:28 | a raw storage write succeeds exactly when storage is usable and within quota, and then the entry is the value; a failed write leaves it alone |
| AuthToken.TokenStore.RemoveItem | src/utils/authToken.js:19 | a raw removal succeeds exactly when storage is usable, and leaves no entry |
| AuthToken.TokenStore.SetAuthToken | src/utils/authToken.js:15-27 | true exactly when the write or removal happened; a nullish token removes the entry, any other is stored as `String(token)`; failure leaves the entry unchanged |
| AuthToken.TokenStore.ClearAuthToken | src/utils/authToken.js:29 | succeeds exactly when storage is usable, and then no token is present |
| RouteGuards.ProtectedRoute | src/Components/ProtectedRoute.jsx:4-10 | renders the nested route exactly when a token is present, else redirects to `/login`, replacing history and carrying the location |
| RouteGuards.PublicRoute | src/Components/PublicRoute.jsx:4-9 | renders its child exactly when no token is present, else redirects to `/`, replacing history |
| RouteGuards.GuardsComplementary | src/Components/PublicRoute.jsx:5-6 | for any store, exactly one of the two guards lets its page through |
| RouteGuards.EmptyTokenIsRedirected | src/Components/ProtectedRoute.jsx:6-7 | a stored empty token counts as no token: protected pages redirect, public pages render |
| Routes.StripTrailingSlashes | src/RoutesComponent.jsx:17-45 | the pathname minus its trailing slashes: a prefix that does not end in `/`, followed only by slashes |
| Routes.FirstMatch | src/RoutesComponent.jsx:17-45 | a route is found exactly when some entry matches, and the one found matches |
| Routes.Lookup | src/RoutesComponent.jsx:17-45 | the wildcard exactly when no table entry matches, otherwise a matching table entry |
| Routes.Resolve | src/RoutesComponent.jsx:17-45 | public routes show their page without a token and redirect to `/` with one; protected routes the reverse, redirecting to `/login` with the location; unmatched paths show `NotFound` |
| Routes.AtMostOneRouteMatches | src/RoutesComponent.jsx:17-44 | no pathname matches two entries, so the public and protected sets are disjoint |
| Routes.LookupFindsMatch | src/RoutesComponent.jsx:17-44 | a pathname matching an entry selects that entry |
| Routes.PublicPaths | src/RoutesComponent.jsx:17-32 | `/login` and `/signup` select their public routes |
| Routes.ProtectedPaths | src/RoutesComponent.jsx:35-44 | `/`, `/userlist`, `/dashboarduserlist`, `/profile` and `/contacts` select their protected routes |
| Routes.NoEntryMeansNotFound | src/RoutesComponent.jsx:45 | a non-root pathname that is no table path selects the wildcard and shows `NotFound`, with or without a token |
| Routes.UnroutedLinkIsNotFound | src/Components/Header.jsx:55-71 | each header link target that no table entry has shows `NotFound` with or without a token |
| Routes.HeaderLinksAreNotFound | src/Components/Header.jsx:55-71 | the header's `/states`, `/quizes` and `/ ai-quiz` links (also as `/%20ai-quiz`) show `NotFound` with or without a token |
| Routes.OneRedirectSuffices | src/RoutesComponent.jsx:17-45 | following a guard's redirect once always reaches a page that renders |
| Routes.MatchIgnoresCaseAndTrailingSlash | src/RoutesComponent.jsx:17-45 | lower-casing a pathname and adding a trailing slash does not change the route it selects |
| LoginPage.RefusalMessage | src/Pages/Login.jsx:32 | the server's message when it is truthy, `Login failed` otherwise; never empty |
| LoginPage.LoginForm.constructor | src/Pages/Login.jsx:8-12 | empty fields and error, not loading, password hidden |
| LoginPage.LoginForm.BeginSubmit | src/Pages/Login.jsx:18-19 | clears the error and starts loading; the inputs are kept |
| LoginPage.LoginForm.CompleteSubmit | src/Pages/Login.jsx:22-41 | navigates to `/` exactly when a success answer was written to storage, which then holds `String(data.token)`; otherwise storage is unchanged; a refusal shows its message; loading ends in every case |
| LoginPage.LoginForm.HandleSubmit | src/Pages/Login.jsx:16-42 | the whole submit: the same navigation and storage outcome, and the error is the refusal message or empty; a refusal always leaves a non-empty error |
| LoginPage.LoginForm.TogglePasswordVisibility | src/Pages/Login.jsx:44-46 | flips password visibility and nothing else |
| LoginPage.ToggleTwice | src/Pages/Login.jsx:44-46 | toggling twice restores the visibility |
| ContactListPage.WithStatus | src/Pages/ContactList.jsx:51-58 | same length and same ids; contacts with the id get the new status and keep every other field; the rest are untouched |
| ContactListPage.LastStatusWins | src/Pages/ContactList.jsx:51-58 | two updates of one id leave the second status |
| ContactListPage.UpdatesOfDistinctIdsCommute | src/Pages/ContactList.jsx:51-58 | updates of different ids can be applied in either order |
| ContactListPage.UnknownIdChangesNothing | src/Pages/ContactList.jsx:51-58 | an update for an id no contact has leaves the list as it was |
| ContactListPage.FilteredContacts | src/Pages/ContactList.jsx:95-100 | exactly the contacts whose name, email or subject includes the term without case, each as often as in the list, in their original order |
| ContactListPage.EmptyTermKeepsAll | src/Pages/ContactList.jsx:95-100 | an empty search shows every contact |
| ContactListPage.StatusBadgeColor | src/Pages/ContactList.jsx:69-80 | each of `pending`, `in-progress` and `resolved` gets its own style; the gray default goes exactly to every other status |
| ContactListPage.BadgeColorsDistinct | src/Pages/ContactList.jsx:69-80 | two different known statuses never share a badge style |
| ContactListPage.AvatarGradient | src/Pages/ContactList.jsx:208-221 | the row's avatar gradient is the one at its index modulo four |
| ContactListPage.AvatarGradientCycles | src/Pages/ContactList.jsx:208-221 | gradients repeat every four rows, and neighbouring rows differ |
| ContactListPage.ContactList.constructor | src/Pages/ContactList.jsx:13-16 | no contacts, loading, no error, empty search |
| ContactListPage.ContactList.Visible | src/Pages/ContactList.jsx:95-100 | the shown rows keep the list's order, and with an empty search they are the whole list |
| ContactListPage.ContactList.Shown | src/Pages/ContactList.jsx:154-162 | the table is shown only when not loading and no error is set |
| ContactListPage.ContactList.SetSearchTerm | src/Pages/ContactList.jsx:147 | replaces the search term and nothing else |
| ContactListPage.ContactList.BeginFetch | src/Pages/ContactList.jsx:23-24 | starts loading and clears the error; the list is kept |
| ContactListPage.ContactList.CompleteFetch | src/Pages/ContactList.jsx:25-42 | success replaces the list; a refusal stores the server's message and keeps the list; a failed call stores the fixed message; loading ends |
| ContactListPage.ContactList.Fetch | src/Pages/ContactList.jsx:22-43 | the whole fetch: success shows the table; a refusal shows its message, or the table when the message is missing or empty; a failed call shows the fixed message |
| ContactListPage.ContactList.HandleStatusUpdate | src/Pages/ContactList.jsx:45-67 | only a success answer changes the list, and then exactly as `WithStatus`; the length, loading state, error and search never change |
| DashboardUserListPage.FilteredUsers | src/Pages/DashboardUserList.jsx:31-35 | exactly the users whose name or email includes the term without case, each as often as in the list, in their original order |
| DashboardUserListPage.EmptyTermKeepsAll | src/Pages/DashboardUserList.jsx:31-35 | an empty search shows every user |
| DashboardUserListPage.LongerTermNarrows | src/Pages/DashboardUserList.jsx:31-35 | typing more characters never brings back a user the shorter term hid |
| DashboardUserListPage.RoleLabel | src/Pages/DashboardUserList.jsx:118 | `user.role \|\| 'User'`: the role when it is truthy, `User` otherwise; never empty |
| DashboardUserListPage.StatusLabel | src/Pages/DashboardUserList.jsx:106-115 | `Active` exactly for active users, `Inactive` exactly for the others |
| DashboardUserListPage.DashboardUserList.constructor | src/Pages/DashboardUserList.jsx:5-8 | no users, loading, no error, empty search |
| DashboardUserListPage.DashboardUserList.Visible | src/Pages/DashboardUserList.jsx:31-35 | the shown rows keep the list's order, and with an empty search they are the whole list |
| DashboardUserListPage.DashboardUserList.Shown | src/Pages/DashboardUserList.jsx:54-61 | the table is shown only when not loading and no error is set |
| DashboardUserListPage.DashboardUserList.SetSearchTerm | src/Pages/DashboardUserList.jsx:49 | replaces the search term and nothing else |
| DashboardUserListPage.DashboardUserList.BeginFetch | src/Pages/DashboardUserList.jsx:15-16 | starts loading and clears the error; the list is kept |
| DashboardUserListPage.DashboardUserList.CompleteFetch | src/Pages/DashboardUserList.jsx:17-28 | success replaces the list; a refusal stores the server's message; a failed call stores the fixed message; loading ends |
| DashboardUserListPage.DashboardUserList.Fetch | src/Pages/DashboardUserList.jsx:14-29 | the whole fetch: success shows the table; a refusal shows its message, or the table when the message is missing or empty; a failed call shows the fixed message |
| UserListPage.ListFor | src/Pages/UserList.jsx:121 | the all-users list on the `all` tab, the dashboard-users list on any other |
| UserListPage.UserList.constructor | src/Pages/UserList.jsx:5-9 | both lists empty, loading, no error, `all` tab |
| UserListPage.UserList.Displayed | src/Pages/UserList.jsx:121 | the list of the active tab |
| UserListPage.UserList.Shown | src/Pages/UserList.jsx:112-122 | the table is shown only when not loading and no error is set |
| UserListPage.UserList.SelectTab | src/Pages/UserList.jsx:11-13 | the tab becomes active, and a refetch follows exactly when the tab changed; the lists are kept |
| UserListPage.UserList.BeginFetch | src/Pages/UserList.jsx:16-19 | starts loading, clears the error and returns the tab the request is for |
| UserListPage.UserList.CompleteFetch | src/Pages/UserList.jsx:19-38 | success replaces only the list of the requested tab; a refusal stores the server's message; a failed call stores the fixed message; loading ends |
| UserListPage.UserList.Fetch | src/Pages/UserList.jsx:15-39 | a success is what the active tab then displays, and the other tab's list is unchanged; a failure changes neither list; a refusal shows its message or the table |
| ApiUrl.BaseUrl | src/config/ApiUrl.js:1-2 | the configured URL when it is truthy, the local default otherwise; never empty |
| ApiUrl.FixedPath | src/config/ApiUrl.js:4-50 | every admin endpoint's path starts with `/admin/`, and no other endpoint's does |
| ApiUrl.Prefix | src/config/ApiUrl.js:16-45 | every admin URL builder's prefix starts with `/admin/`, and each prefix ends with a slash before the id |
| ApiUrl.FixedUrl | src/config/ApiUrl.js:4-50 | the URL starts with the base, and continues with `/admin/` exactly for admin endpoints |
| ApiUrl.IdUrl | src/config/ApiUrl.js:16-45 | the URL is the base, the builder's prefix, the id as given and the builder's suffix, in that order |
| ApiUrl.AdminUrlsUnderAdmin | src/config/ApiUrl.js:19-50 | every admin URL, fixed or built, starts with the base followed by `/admin/` |
| ApiUrl.UpdateStatusExtendsContactList | src/config/ApiUrl.js:15-16 | a contact's status URL is the contact-list URL, `/`, the id and `/status` |
| ApiUrl.ApproveAndRejectDifferInLastSegment | src/config/ApiUrl.js:22-23 | approve and reject of one quiz share all but the last segment, and never coincide |
| ApiUrl.IdUrlInjective | src/config/ApiUrl.js:16-45 | one builder never gives two ids the same URL |
| ApiUrl.IdsAreNotEscaped | src/config/ApiUrl.js:42-43 | ids are inserted verbatim, so the user-details URL of `id/suspend` is the suspend URL of `id` |
| AdminService.BuildHeaders | src/service/AdminService.js:7-15 | JSON content type unless the caller set one; the caller's headers otherwise kept; `Authorization` is `Bearer <token>` exactly when the stored token is truthy, else the caller's; no other header added |
| AdminService.Settle | src/service/AdminService.js:24-28 | the body is returned exactly when the response is OK; otherwise the error message is the server's truthy message or the fixed fallback, never empty |
| AdminService.QueryString | src/service/AdminService.js:55 | empty exactly when there are no filters; otherwise it starts with the first encoded key and `=` |
| AdminService.WithQuery | src/service/AdminService.js:56-58 | the URL unchanged for an empty query, otherwise the URL, `?` and the query |
| AdminService.PeriodUrl | src/service/AdminService.js:71-87 | an omitted period becomes `30d`; any given value, `null` included, is inserted as its string |
| AdminService.UrlFor | src/service/AdminService.js:36-150 | every one of the eighteen calls targets a URL under the base's `/admin/` |
| AdminService.BodyFor | src/service/AdminService.js:40-137 | only actions carry a body; approval sends its feedback, defaulting to an empty string |
| AdminService.RequestFor | src/service/AdminService.js:36-150 | exactly the actions are POSTs, and every action except approve-withdrawal and unsuspend has a body |
| AdminService.QueryOnlyWithFilters | src/service/AdminService.js:54-60 | the quizzes, transactions and logs URLs get a query exactly when filters are given |
| AdminService.PeriodDefaults | src/service/AdminService.js:71-87 | each analytics call without a period asks for `period=30d`, and a `null` period is sent as `period=null` |
| AdminService.StatusColorAsWritten | src/service/AdminService.js:160-171 | as written, the lookup returns an inherited member function exactly for the names `Object.prototype` supplies |
| AdminService.StatusColorAsWrittenLeaksPrototype | src/service/AdminService.js:170 | `getStatusColor('constructor')` and `getStatusColor('toString')` return functions, not colours |
| AdminService.StatusColor | src/service/AdminService.js:160-171 | corrected: always one of green, yellow, red and gray; each known status gets its colour and gray goes exactly to the rest |
| AdminService.StatusColorMatchesAsWritten | src/service/AdminService.js:160-171 | the correction agrees with the code on every status that names no inherited member |
| QuizManagementPage.ListCall | src/Pages/QuizManagement.jsx:33-36 | the pending endpoint exactly for the `pending` filter, else all quizzes filtered by that status |
| QuizManagementPage.FilteredQuizzes | src/Pages/QuizManagement.jsx:102-114 | exactly the quizzes whose title, creator name or category includes the term without case, each as often as in the list, in their original order |
| QuizManagementPage.EmptyTermNeedsAField | src/Pages/QuizManagement.jsx:102-114 | an empty search keeps a quiz exactly when it has a title, creator name or category |
| QuizManagementPage.StatusColorAsWritten | src/Pages/QuizManagement.jsx:92-100 | as written, the lookup returns an inherited member function exactly for the names `Object.prototype` supplies |
| QuizManagementPage.StatusColorAsWrittenLeaksPrototype | src/Pages/QuizManagement.jsx:99 | `getStatusColor('valueOf')` returns a function, which then lands in the badge's class list |
| QuizManagementPage.StatusColor | src/Pages/QuizManagement.jsx:92-100 | corrected: each of the four statuses gets its classes, and every other status the gray default |
| QuizManagementPage.StatusColorMatchesAsWritten | src/Pages/QuizManagement.jsx:92-100 | the correction agrees with the code on every status that names no inherited member |
| QuizManagementPage.QuestionCount | src/Pages/QuizManagement.jsx:273-274 | `questions?.length \|\| 0`: zero without questions, their number otherwise |
| QuizManagementPage.Preview | src/Pages/QuizManagement.jsx:515-516 | at most the first three questions, in order; fewer only when there are fewer |
| QuizManagementPage.MoreQuestions | src/Pages/QuizManagement.jsx:550-555 | the "more questions" note appears exactly when there are more than three |
| QuizManagementPage.PreviewAccountsForAll | src/Pages/QuizManagement.jsx:515-555 | the previewed questions plus the number in the note are all the questions |
| QuizManagementPage.AstralReasonAccepted | src/Pages/QuizManagement.jsx:675 | five emoji, five characters but ten code units, make an accepted reason |
| QuizManagementPage.AcceptedReasonIsNotBlank | src/Pages/QuizManagement.jsx:62 | a reason the confirm button accepts is never refused by the handler; blank means all whitespace |
| QuizManagementPage.ConfirmDisabled | src/Pages/QuizManagement.jsx:689-692 | confirm is enabled exactly when no action is running and the trimmed reason has at least ten UTF-16 code units |
| QuizManagementPage.ActionsFor | src/Pages/QuizManagement.jsx:315-365 | every row can be reviewed; approve and reject appear exactly for pending quizzes |
| QuizManagementPage.ModalOffersModeration | src/Pages/QuizManagement.jsx:562 | the modal offers approve and reject exactly when the row does |
| QuizManagementPage.ShowsRejectionReason | src/Pages/QuizManagement.jsx:590-591 | the rejection reason is shown exactly when the quiz is rejected and its reason is truthy; such a quiz is never offered moderation |
| QuizManagementPage.QuizManagement.constructor | src/Pages/QuizManagement.jsx:16-24 | no quizzes, loading, `pending` filter, empty search, no quiz selected, both modals closed, empty reason, no action running |
| QuizManagementPage.QuizManagement.Visible | src/Pages/QuizManagement.jsx:102-114 | the shown rows keep the list's order, and each matches the search |
| QuizManagementPage.QuizManagement.SetFilter | src/Pages/QuizManagement.jsx:26-28 | the filter becomes the choice and every other piece of page state is kept; a refetch follows exactly when the filter changed |
| QuizManagementPage.QuizManagement.SetSearchTerm | src/Pages/QuizManagement.jsx:174 | replaces the search term and keeps every other piece of page state |
| QuizManagementPage.QuizManagement.BeginFetch | src/Pages/QuizManagement.jsx:30-36 | starts loading and returns the call the filter selects; every other piece of page state is kept |
| QuizManagementPage.QuizManagement.CompleteFetch | src/Pages/QuizManagement.jsx:37-43 | an answer with `data` replaces the list with its quizzes, or an empty list when it has none; an answer without `data`, or a failed call, keeps the list; loading ends; nothing else changes |
| QuizManagementPage.QuizManagement.BeginApprove | src/Pages/QuizManagement.jsx:46-49 | starts the action and returns the approve call with empty feedback; nothing else changes |
| QuizManagementPage.QuizManagement.ApproveClick | src/Pages/QuizManagement.jsx:333-340 | an Approve button (the row's, and the modal's at lines 565-570) starts the approve call with empty feedback exactly when no action runs; while one runs the button is disabled and nothing changes |
| QuizManagementPage.QuizManagement.BeginReject | src/Pages/QuizManagement.jsx:61-69 | a blank reason makes no call and changes nothing; any other reason starts the action, changes nothing else and returns the reject call with that reason |
| QuizManagementPage.QuizManagement.CompleteModeration | src/Pages/QuizManagement.jsx:49-78 | success starts loading, closes the review modal and refetches with the current filter; failure does neither; the action ends in every case and nothing else changes |
| QuizManagementPage.QuizManagement.CompleteOpenQuizModal | src/Pages/QuizManagement.jsx:81-90 | a details answer selects its quiz and opens the modal and changes nothing else; a failed call changes nothing |
| QuizManagementPage.QuizManagement.CloseQuizModal | src/Pages/QuizManagement.jsx:391 | closes the review modal and keeps every other piece of page state, the selection included |
| QuizManagementPage.QuizManagement.OpenRejectModal | src/Pages/QuizManagement.jsx:577-582 | opens the rejection modal over the review modal and changes nothing else, except while an action runs, when the button is disabled and nothing changes |
| QuizManagementPage.QuizManagement.SetRejectionReason | src/Pages/QuizManagement.jsx:649-651 | replaces the typed reason and keeps every other piece of page state |
| QuizManagementPage.QuizManagement.CloseRejectModal | src/Pages/QuizManagement.jsx:628-632 | the close button, never disabled: closes the rejection modal, clears the reason and changes nothing else |
| QuizManagementPage.QuizManagement.CancelRejection | src/Pages/QuizManagement.jsx:663-668 | Cancel closes the rejection modal, clears the reason and changes nothing else, except while an action runs, when the button is disabled and nothing changes |
| QuizManagementPage.QuizManagement.ConfirmRejection | src/Pages/QuizManagement.jsx:673-692 | exactly when the button is enabled (no action running, a trimmed reason of at least ten UTF-16 code units) it sends the reject call for the selected quiz, starts the action, closes and clears the rejection modal and changes nothing else; otherwise nothing changes |
| Scenarios.LoginThenLand | src/Pages/Login.jsx:25-30 | after a successful login the landing page renders `Home` when the token is non-empty, and bounces back to `/login` when it is empty |
| Scenarios.LoginWithoutToken | src/Pages/Login.jsx:28 | a success answer without a token stores `"undefined"` and still logs in |
| Scenarios.RefusedLoginKeepsSession | src/Pages/Login.jsx:31-35 | a refused login shows the server's reason and leaves the stored token as it was |
| Scenarios.LogoutThenVisit | src/utils/authToken.js:29 | after a logout every protected page redirects to `/login` with its location, and every other page renders |
| Scenarios.BlockedStorageNeverLogsIn | src/Pages/Login.jsx:28-30 | when storage throws, login never navigates and protected pages keep redirecting |

## Left out

- Network I/O and JSON parsing: each awaited call is an `Outcome` parameter, the parsed body or `Rejected`.
- React scheduling: batched updates, effects that run after render, stale closures (`handleStatusUpdate` maps over the `contacts` of its render) and updates after unmount. Each handler runs on the current state.
- Toasts, `console` output, icons, CSS classes beyond the lookups modelled, and the JSX layout.
- The sign-up, home, not-found and profile pages, the header beyond its links, the stats card, the footer and `App`: no decision of the core lives there. The profile page is not part of this model.
- `AuthService`, `UserService` and `ContactService`. Their answers are inputs. They always send `Bearer ${token}`, even `Bearer null`.
- `formatDate` and `formatAmount`: they use `Intl` locale formatting.
- `URLSearchParams` percent-encoding is the parameter `encode`.
- Case folding beyond ASCII, and percent-decoding of pathnames before matching.
- JSON serialisation of request bodies: a body is the list of its fields, or the caller's payload.
- Case-insensitive header names: `BuildHeaders` treats `Content-Type` and `Authorization` as exact keys.
- The `localStorage.getItem` call inside `makeRequest` throwing: it is covered by the call's `Rejected` outcome.
- Contacts, users and quizzes whose searched fields are not strings, or are missing where render would crash. Quiz fields may be absent, as in the code.
- The effect that refetches after a filter or tab change: the method returns a flag or the call to make.
- QuizManagementPage.QuizManagement.ConfirmRejection: requires the rejection modal to be open, since its button exists only then.

## Findings

| source | as written | input that shows it | evidently intended | confidence | as-written member | corrected member |
|---|---|---|---|---|---|---|
| src/service/AdminService.js:160-171 | `colors[status] \|\| 'gray'` on an object literal also finds members inherited from `Object.prototype` | `getStatusColor('constructor')`, `getStatusColor('toString')` return functions | gray for every status outside the table | high, not executed | AdminService.StatusColorAsWritten | AdminService.StatusColor |
| src/Pages/QuizManagement.jsx:92-100 | `colors[status] \|\| 'bg-gray-100 text-gray-800'` finds inherited members in the same way | `getStatusColor('valueOf')` returns a function, not class names | the gray classes for every status outside the table | high, not executed | QuizManagementPage.StatusColorAsWritten | QuizManagementPage.StatusColor |
