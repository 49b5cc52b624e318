# B2B portal core, modelled in Dafny

This project models the client-side logic of the B2B customer portal, a
Next.js/React front end over a REST API. Markup and network wrappers are
not modelled. The logic that is modelled falls into these groups.

- **The session.**
  - The Redux `auth` slice is a class with one method per reducer case and per thunk.
  - The session service keeps the session in a js-cookie jar (`b2b_token`, `b2b_user`), with a Bearer-header request interceptor and a 401 response interceptor.
  - `AuthGuard` decides between the loading placeholder, the redirect to `/login` and the signed-in chrome.
- **The hand-written cookie helpers** in `src/lib/cookies.ts`:
  - `getCookie` is a `for` loop over `;`-separated entries with an inner space-stripping `while`;
  - `setCookie` and `deleteCookie` write fixed-format texts;
  - three helpers handle `b2b_customer_token`.
- **The dashboard's "Create New Order" dialog.**
  - The hourly time slots and the inclusive day range, whose end date is reordered from `DD-MM-YYYY` by split/reverse/join.
  - The order draft with the partial resets its inputs perform.
  - The choices derived from the fetched catalog, the composed address text and the create button.
  - The add-address dialog, with its validation order and filling from the map picker.
  - The approval dialog with its mandatory remark.
- **`QuotationsTable`:**
  - the approve/reject dialog, where only a rejection needs a remark;
  - the remark payload, sent trimmed or left out;
  - the in-flight marker;
  - the single expanded item;
  - the precedence by which a failure becomes a message.
- **The Roles page:** the role filter, and a role change that rewrites exactly one employee in both the full list and the shown list.
- **The two geocoder folds.**
  - `GoogleMapPicker` and `LocationSearchBar` fold Google address components into address fields, each with its own fallback for the first line.
  - Each fold is a loop over the component list that updates the address fields in place, and each is proved against a recursive specification.
  - The search box is a class whose state the place handler and `clearSearch` update.

How things are represented:

- Every server call is a parameter of type `Outcome`: a response body, or a thrown error carrying an optional server message, an optional error message and an optional HTTP status.
- Every toast is appended to a log kept in the component's state.
- An asynchronous handler becomes two steps. The step before the `await` sends the request; the step after it handles the outcome. A method composes the two.

## Model

| member | source | states |
|---|---|---|
| Http.ServerThenErrorMessage | src/app/roles/page.tsx:126-131 | a failure is reported by the server's message if truthy, else the error's own message if truthy, else the caller's default |
| JsText.TrimEmptyIffBlank | src/components/QuotationsTable.tsx:115 | `trim()` yields the empty string exactly when the text is all whitespace |
| JsText.TrimmedEnds | src/components/QuotationsTable.tsx:128 | a non-empty `trim()` result has no whitespace at either end |
| JsText.Split | src/app/dashboard/page.tsx:92 | `split('-')` yields at least one field and no field contains the separator |
| JsText.SplitJoin | src/app/dashboard/page.tsx:92 | joining separator-free fields and splitting again gives back the fields |
| JsText.JoinSplit | src/app/dashboard/page.tsx:92 | splitting a text and joining with the same separator gives back the text |
| JsText.ReverseReverse | src/app/dashboard/page.tsx:92 | reversing the fields twice gives them back |
| JsText.PadStart2 | src/app/dashboard/page.tsx:124 | `padStart(2, '0')` leaves two or more characters alone and left-fills a shorter text with zeros to two |
| JsText.UpperFirst | src/components/QuotationsTable.tsx:82 | `charAt(0).toUpperCase() + slice(1)` keeps the length and changes only the first character |
| JsRecord.Stringified | src/services/authService.ts:67 | storing an object as JSON keeps exactly its defined keys with their values and drops the `undefined` ones |
| AuthService.UserObject | src/services/authService.ts:67 | the object stored as `b2b_user` on login carries the login user's `id` and every other field of that user |
| AuthService.WithoutSession | src/services/authService.ts:46-47 | removing the session leaves neither `b2b_token` nor `b2b_user` and every other cookie as it was |
| AuthService.ConvertCurrentUserToB2BUser | src/services/authService.ts:9-15 | the converted profile keeps every field and adds exactly `name` (from `contact_person`) and `mobile` (from `phone`) |
| AuthService.LegacyUserFields | src/services/authService.ts:116-143 | a stored user without `roleId` is rebuilt with `roleId := id`, `locationId := '1'`, `credit_days := 30`, `status := 'active'`, the `name`/`contact_person` and `phone`/`mobile` fallbacks, and the current time stamps |
| AuthService.LegacyDefaultsSurvive | src/services/authService.ts:119-136 | the fixed legacy fields are not overridden by the copied fields or the time stamps |
| AuthService.LegacyCopiesSurvive | src/services/authService.ts:117-124 | the copied identity and contact fields are not overridden by the time stamps |
| AuthService.GetCurrentUserFromCookie | src/services/authService.ts:106-149 | an absent `b2b_user` cookie, or text that does not parse or parses to `null`, reads as null; a stored object with a truthy `roleId` is returned as it is; any other JSON value is converted to the legacy user (`roleId := id`, `locationId := '1'`, `credit_days := 30`, `status := 'active'`), a non-object having no fields to copy |
| AuthService.GetCurrentToken | src/services/authService.ts:152-154 | the token is the non-empty `b2b_token` text; an absent or empty cookie gives null |
| AuthService.AuthorizationHeader | src/services/authService.ts:27-34 | a request carries `Bearer <token>` exactly when a non-empty `b2b_token` cookie is present |
| AuthService.GetCurrentUser | src/services/authService.ts:92-103 | the profile is returned, converted, exactly when the fetch answered with `status` and `data`; otherwise null |
| AuthService.AfterResponseError | src/services/authService.ts:41-55 | a 401 removes both session cookies; any other failure leaves the jar |
| AuthService.AfterLogin | src/services/authService.ts:59-74 | an accepted login writes `b2b_token := user.id` and `b2b_user`; a refused one leaves the jar; a failed call goes through the 401 interceptor; cookies outside the session are never touched |
| AuthService.LoginResult | src/services/authService.ts:70-73 | login resolves with the response body, or throws the server's message or `Login failed` |
| AuthService.AfterRefreshProfile | src/services/authService.ts:164-177 | `b2b_user` is rewritten with the converted profile only on an accepted fetch; otherwise the jar is unchanged |
| AuthService.RefreshProfileResult | src/services/authService.ts:164-177 | the refresh succeeds exactly when the profile fetch is accepted; otherwise it fails with the server's message or `Failed to refresh profile` |
| AuthService.CookieJar.constructor | src/services/authService.ts:2 | the jar starts with the given cookies |
| AuthService.CookieJar.Set | src/services/authService.ts:66 | `Cookies.set` replaces one cookie |
| AuthService.CookieJar.Remove | src/services/authService.ts:46 | `Cookies.remove` drops one cookie |
| AuthService.OnResponseError | src/services/authService.ts:41-55 | the response interceptor clears the session and redirects to `/login` exactly on a 401 |
| AuthService.Login | src/services/authService.ts:59-74 | the login call leaves the jar as `AfterLogin` says, resolves or throws as `LoginResult` says, and sends the header the jar held |
| AuthService.Logout | src/services/authService.ts:77-89 | logout removes both session cookies whatever the network does, never throws, and sends no bearer header |
| AuthService.RefreshProfile | src/services/authService.ts:164-177 | the refresh call changes the jar and returns as `AfterRefreshProfile` and `RefreshProfileResult` say |
| AuthService.IsAuthenticated | src/services/authService.ts:157-161 | `isAuthenticated` holds exactly when a non-empty token text and a stored user that parses to a JSON value other than `null` are both present |
| AuthService.HeaderIffToken | src/services/authService.ts:27-34 | the bearer header is present exactly when `getCurrentToken` returns a token, and carries that token |
| AuthService.LoginStoresSession | src/services/authService.ts:63-68 | after an accepted login the token reads back as the user id (null when the id is empty), a user can be read, and with a non-empty id the jar is authenticated |
| AuthService.LogoutEndsSession | src/services/authService.ts:77-89 | after logout no token, no user and no header can be read |
| AuthService.UnauthorizedEndsSession | src/services/authService.ts:44-52 | a 401 ends the session exactly as logout does |
| AuthService.RefreshStoresProfile | src/services/authService.ts:164-177 | a refresh never changes the token, a failed one changes nothing, and an accepted profile with a `roleId` is what the next cookie read returns |
| AuthService.LegacyUserIsStable | src/services/authService.ts:112-143 | a converted legacy user with a truthy `id`, once written back, reads back unchanged |
| AuthService.IsAuthenticatedIgnoresClock | src/services/authService.ts:157-161 | whether the jar is authenticated does not depend on the clock the legacy conversion reads |
| AuthSlice.Reduce | src/store/authSlice.ts:73-150 | only a fulfilled login or an initialization signs the store in; only the login, logout and initialize cases change the token; a rejected login and both logout outcomes leave no user, no token, nobody signed in and nothing loading |
| AuthSlice.AfterUpdateUser | src/store/authSlice.ts:83-88 | the `b2b_user` cookie is rewritten with the merged user only when a user is signed in; otherwise the jar is unchanged |
| AuthSlice.LoginThunk | src/store/authSlice.ts:7-26 | the login thunk fulfils exactly when the response has both `status` and `data`, with the profile fetch's result (possibly none) as user and the login user's id as token; a rejection always carries a non-empty message |
| AuthSlice.RefreshThunk | src/store/authSlice.ts:42-52 | the refresh thunk fulfils exactly when the profile fetch yields a user, with that user; otherwise it rejects with a non-empty message |
| AuthSlice.AuthStore.constructor | src/types/auth.ts:86-92 | the store starts in `initialAuthState`: no user, no token, not authenticated, not loading, no error |
| AuthSlice.AuthStore.ClearError | src/store/authSlice.ts:75-77 | `clearError` sets only `error` to null |
| AuthSlice.AuthStore.SetLoading | src/store/authSlice.ts:79-81 | `setLoading` sets only `isLoading` |
| AuthSlice.AuthStore.UpdateUser | src/store/authSlice.ts:83-88 | `updateUser` merges the changes into the user and rewrites the `b2b_user` cookie when a user is signed in, and changes nothing otherwise |
| AuthSlice.AuthStore.LoginPending | src/store/authSlice.ts:93-96 | `loginUser.pending` raises `isLoading` and clears `error` |
| AuthSlice.AuthStore.LoginFulfilled | src/store/authSlice.ts:97-103 | `loginUser.fulfilled` stores user and token from the payload, authenticates, stops loading and clears the error |
| AuthSlice.AuthStore.LoginRejected | src/store/authSlice.ts:104-110 | `loginUser.rejected` wipes user, token and authentication, stops loading and records the message |
| AuthSlice.AuthStore.LogoutPending | src/store/authSlice.ts:114-116 | `logoutUser.pending` raises only `isLoading` |
| AuthSlice.AuthStore.LogoutFulfilled | src/store/authSlice.ts:117-123 | `logoutUser.fulfilled` clears the session, loading and error |
| AuthSlice.AuthStore.LogoutRejected | src/store/authSlice.ts:124-131 | `logoutUser.rejected` clears the session and loading and records the message |
| AuthSlice.AuthStore.InitializeFulfilled | src/store/authSlice.ts:135-140 | `initializeAuth.fulfilled` copies user, token and authentication from the payload and stops loading |
| AuthSlice.AuthStore.RefreshFulfilled | src/store/authSlice.ts:144-146 | `refreshProfile.fulfilled` replaces only the user |
| AuthSlice.AuthStore.RefreshRejected | src/store/authSlice.ts:147-149 | `refreshProfile.rejected` sets only the error |
| AuthSlice.AuthStore.DispatchLogin | src/store/authSlice.ts:7-26 | dispatching a login leaves the store in the pending-then-settled state of the reducer, the jar as the login service leaves it, and redirects exactly on a 401 |
| AuthSlice.AuthStore.DispatchLogout | src/store/authSlice.ts:29-39 | dispatching a logout always ends fulfilled (the service swallows failures) and the jar loses both session cookies |
| AuthSlice.AuthStore.DispatchRefreshProfile | src/store/authSlice.ts:42-52 | dispatching a refresh reduces the thunk's settlement and leaves the jar as the refresh service does |
| AuthSlice.AuthStore.DispatchInitialize | src/store/authSlice.ts:55-68 | dispatching an initialization reduces the payload read from the jar at that moment |
| AuthSlice.LoginPendingKeepsSession | src/store/authSlice.ts:93-96 | the pending login keeps user, token and authentication unchanged |
| AuthSlice.LoginFlowOutcome | src/store/authSlice.ts:11-26 | after a settled login: accepted responses authenticate with the login id as token and the fetched profile as user; every other outcome wipes any earlier session and records a non-empty error |
| AuthSlice.AuthenticatedWithoutUser | src/store/authSlice.ts:14-19 | a login whose profile fetch fails still authenticates, with no user |
| AuthSlice.LogoutClearsSession | src/store/authSlice.ts:117-131 | both logout cases clear user, token, authentication and loading; only the rejected one records an error |
| AuthSlice.InitializeIdempotent | src/store/authSlice.ts:55-68 | initializing twice from an unchanged jar equals initializing once |
| AuthSlice.RefreshTouchesOnlyUserOrError | src/store/authSlice.ts:144-149 | a refresh keeps token, authentication and loading; it replaces only the user on success and only the error on failure |
| AuthSlice.UpdateUserAndClearError | src/store/authSlice.ts:75-88 | `updateUser` with no user changes neither state nor jar, with a user merges the changes; `clearError` changes only the error |
| AuthSlice.LoginThenInitialize | src/store/authSlice.ts:55-68 | after an accepted login with a non-empty id, initializing from the jar keeps the store signed in with that token and a user |
| AuthSlice.InitializeOverrides | src/store/authSlice.ts:135-140 | an initialization replaces the session fields whatever the state before it |
| AuthSlice.LogoutThenInitialize | src/store/authSlice.ts:117-140 | after a logout, initializing from the cleared jar leaves nobody signed in |
| AuthSlice.InitializeHasToken | src/store/authSlice.ts:58-65 | an initialization that reports a session also reports a token |
| AuthSlice.RunKeepsInvariant | src/store/authSlice.ts:90-150 | every sequence of reducer actions the thunks can produce keeps "authenticated implies a token" |
| AuthGuard.CompanyLine | src/components/AuthGuard.tsx:89-93 | the company line under the welcome text appears exactly when `company_name` is truthy (a non-empty string, a non-zero number or `true`), and carries that value |
| AuthGuard.Welcome | src/components/AuthGuard.tsx:87 | the welcome text is the contact person when that is truthy, else the name, and `undefined` without a user |
| AuthGuard.Gate | src/components/AuthGuard.tsx:25-108 | the guard shows the loading placeholder exactly while loading; signed out, the `fallback` itself when it is truthy and otherwise the redirect message; signed in, the page inside the header chrome carrying `Welcome(user)` and `CompanyLine(user)` |
| AuthGuard.ShouldRedirect | src/components/AuthGuard.tsx:18-22 | the effect navigates only once loading is over, and exactly when the gate shows a signed-out screen |
| AuthGuard.RedirectMatchesScreen | src/components/AuthGuard.tsx:18-40 | the effect navigates to `/login` exactly when a signed-out screen is shown, and never from the loading placeholder |
| AuthGuard.Router.constructor | src/components/AuthGuard.tsx:15 | the router starts with no navigation |
| AuthGuard.Router.Push | src/components/AuthGuard.tsx:20 | `router.push` appends one path |
| AuthGuard.Guard.constructor | src/components/AuthGuard.tsx:13 | a freshly mounted guard has not run its effect |
| AuthGuard.Guard.Render | src/components/AuthGuard.tsx:18-40 | each render shows the gate's screen and pushes `/login` only when the `[isAuthenticated, isLoading]` pair changed and the visitor is signed out |
| AuthGuard.HandleSignOut | src/components/AuthGuard.tsx:42-51 | sign-out runs the logout flow, clears both session cookies and then navigates to `/login` exactly once |
| AuthGuard.SignOutLeavesGuardSignedOut | src/components/AuthGuard.tsx:18-40 | after sign-out the guard, rendered with the store's fields, redirects and never shows the protected page |
| Cookies.StripSpaces | src/lib/cookies.ts:17 | the inner loop removes exactly the leading space characters: the result is a suffix, does not start with a space, and everything dropped is a space |
| Cookies.FirstMatchShift | src/lib/cookies.ts:15-19 | when the first entry does not match, the first match of the rest is the first match of the whole, one position later |
| Cookies.LookupFirstMatch | src/lib/cookies.ts:13-19 | `getCookie` returns `v` exactly when some entry matches `name=` with value `v` and no earlier entry matches |
| Cookies.NoMatchShift | src/lib/cookies.ts:15-21 | no entry matches exactly when the first does not and none of the rest does |
| Cookies.LookupStep | src/lib/cookies.ts:15-19 | one loop step either returns the value of the current matching entry or goes on with the next entry |
| Cookies.LookupNoneIff | src/lib/cookies.ts:15-21 | `getCookie` returns null exactly when no entry matches |
| Cookies.FirstEqualsAfterKey | src/lib/cookies.ts:13-18 | in `key=value` with no `=` in `key`, the first `=` comes right after `key` |
| Cookies.SameKeyBeforeEquals | src/lib/cookies.ts:13-18 | an entry `key=value` that starts with `name=`, neither name holding `=`, has `key` equal to `name` |
| Cookies.KeyMatchesExactly | src/lib/cookies.ts:13-18 | an entry `key=value` matches `name` exactly when `key` is `name`, so a longer name such as `xname` never matches, and then the value is returned |
| Cookies.ValueKeepsEquals | src/lib/cookies.ts:18 | the returned value is everything after the first `name=`, further `=` included |
| Cookies.TabIsNotStripped | src/lib/cookies.ts:17 | only spaces are stripped: a tab before the name prevents a match |
| Cookies.SetCookieText | src/lib/cookies.ts:7 | the text `setCookie` writes begins with the entry `name=value;`, so that entry is what a later scan for `name` finds (`SetThenLookup`) |
| Cookies.DeleteCookieText | src/lib/cookies.ts:26 | the text `deleteCookie` writes has `setCookie`'s layout for an empty value with `deleteCookie`'s own literal `UTC` epoch expiry, cut before `SameSite=Lax` |
| Cookies.LeadingEntryWins | src/lib/cookies.ts:14-19 | a leading entry `name=value` without `;` decides the lookup, whatever follows it |
| Cookies.SetThenLookup | src/lib/cookies.ts:7-19 | scanning the text `setCookie` writes for `name` gives back `value` when neither holds a `;` |
| Cookies.DeleteThenLookup | src/lib/cookies.ts:13-26 | scanning the text `deleteCookie` writes for `name` gives the empty value |
| Cookies.CookieDocument.constructor | src/lib/cookies.ts:4 | the document starts with the given window flag and cookie text and nothing written |
| Cookies.CookieDocument.StripLeadingSpaces | src/lib/cookies.ts:17 | the inner `while` yields the entry without its leading spaces |
| Cookies.CookieDocument.GetCookie | src/lib/cookies.ts:11-22 | without a window `getCookie` returns null; otherwise the value of the first matching `;`-separated entry, or null |
| Cookies.CookieDocument.ScanEntries | src/lib/cookies.ts:15-19 | the `for` loop returns the value of the first entry that matches once stripped, or null |
| Cookies.CookieDocument.SetCookie | src/lib/cookies.ts:3-9 | with a window exactly one text is written, `SetCookieText` with `expires=toUtc(ExpiryMillis(now, days))`, the expiry lying `days` whole days after now; without one nothing |
| Cookies.CookieDocument.DeleteCookie | src/lib/cookies.ts:24-28 | with a window exactly one text `name=; expires=<1970 epoch>; path=/;` is written; without one nothing |
| Cookies.CookieDocument.SetB2BCustomerToken | src/lib/cookies.ts:31-33 | writes the `b2b_customer_token` cookie with a 7-day expiry |
| Cookies.CookieDocument.GetB2BCustomerToken | src/lib/cookies.ts:35-37 | reads the `b2b_customer_token` cookie as `getCookie` does |
| Cookies.CookieDocument.DeleteB2BCustomerToken | src/lib/cookies.ts:39-41 | deletes the `b2b_customer_token` cookie as `deleteCookie` does |
| Slots.HourValue | src/app/dashboard/page.tsx:124 | every slot value is the hour padded to at least two digits followed by `:00` |
| Slots.HourOf | src/app/dashboard/page.tsx:124 | reading an `HH:00` value back yields an hour between 0 and 99 |
| Slots.HourValueRoundTrip | src/app/dashboard/page.tsx:124 | every hour 0-99 is written as two zero-padded digits and `:00`, and reads back as itself |
| Slots.HourValueInjective | src/app/dashboard/page.tsx:124 | two different hours give two different slot values |
| Slots.TabulateAt | src/app/dashboard/page.tsx:123-135 | the `i`-th entry of `f` tabulated over consecutive integers from `start` is `f(start + i)`, by induction on the count |
| Slots.HourValuesAt | src/app/dashboard/page.tsx:123-135 | the `i`-th of the values of `n` consecutive hours from `start` is the value of hour `start + i` |
| Slots.GetAvailableTimeSlots | src/app/dashboard/page.tsx:116-138 | the loop's result is the values of the `end - start` consecutive hours from `start` (so, by `HourValuesAt`, one slot per hour `h` with `start <= h < end`, in ascending order, each `h` padded to two digits plus `:00`); none without slot data or when `end <= start` |
| Slots.ReorderDate | src/app/dashboard/page.tsx:92 | the end date is reordered by splitting on `-`, reversing the fields and joining them with `-` |
| Slots.ReorderDateInvolution | src/app/dashboard/page.tsx:92 | the split/reverse/join reordering undoes itself |
| Slots.SplitThreeFields | src/app/dashboard/page.tsx:92 | splitting `d-m-y` on dashes gives its three fields |
| Slots.JoinThreeFields | src/app/dashboard/page.tsx:92 | joining three fields with dashes gives `a-b-c` |
| Slots.ReorderDateFields | src/app/dashboard/page.tsx:92 | `DD-MM-YYYY` is reordered to `YYYY-MM-DD` |
| Slots.GetAvailableDates | src/app/dashboard/page.tsx:87-113 | one ISO date per day from the start date up to and including the parsed end date, in order; none without slot data or when the end date does not parse |
| OrderForm.ClearedDiffersOnlyInPriority | src/app/dashboard/page.tsx:48-63 | the draft after a created order differs from the initial draft only in `priority` (`'normal'` before, empty after) |
| OrderForm.SetField | src/app/dashboard/page.tsx:888 | an ordinary input sets its own field and leaves every other field unchanged |
| OrderForm.SelectCategory | src/app/dashboard/page.tsx:805-811 | choosing a category sets it and clears only the subcategory and the segment; the filter attribute and option stay |
| OrderForm.SelectSubcategory | src/app/dashboard/page.tsx:830 | choosing a subcategory sets it and clears only the filter attribute and the segment; the filter option stays |
| OrderForm.FindCategory | src/app/dashboard/page.tsx:834 | `find` returns the first category with the id, and none exactly when no category has it |
| OrderForm.OptionKey | src/app/dashboard/page.tsx:896 | an option is keyed by its id as text when it has one, otherwise by its value as text |
| OrderForm.SubcategoryChoices | src/app/dashboard/page.tsx:831-840 | the subcategory choices are the chosen category's subcategories in order; none while loading, without a category or for an unknown one |
| OrderForm.AttributeChoices | src/app/dashboard/page.tsx:860-878 | there are no attribute choices without a category or for an unknown one |
| OrderForm.AttributeChoicesScope | src/app/dashboard/page.tsx:860-878 | with category and subcategory the attribute choices are exactly the attributes of that subcategory or of no subcategory; with only the category, exactly the category-wide ones |
| OrderForm.FilterOptionChoices | src/app/dashboard/page.tsx:889-907 | without a (known) category there are no filter options; with only the category the list is the category-wide attributes |
| OrderForm.OptionChoicesOf | src/app/dashboard/page.tsx:895-898 | the flattened option list holds exactly the choices of every option of every listed attribute |
| OrderForm.FilterOptionsOfChosenAttribute | src/app/dashboard/page.tsx:890-898 | with category and subcategory the filter options are exactly the options of the chosen attribute, and only while it is in scope |
| OrderForm.MatchingSegments | src/app/dashboard/page.tsx:928-933 | the segments listed are exactly those of the chosen category whose category and subcategory ids equal the chosen ones; none when the category is not in the list |
| OrderForm.SegmentVisible | src/app/dashboard/page.tsx:914-921 | the segment field is shown exactly when category and subcategory are set and the category has a segment with both ids |
| OrderForm.SegmentChoices | src/app/dashboard/page.tsx:927-937 | one segment choice per matching segment, in order |
| OrderForm.FindAddress | src/app/dashboard/page.tsx:964 | `find` returns the first listed address with the id, and none exactly when no address has it |
| OrderForm.AddressText | src/app/dashboard/page.tsx:969 | the composed address starts with `store, line1` |
| OrderForm.ComposedAddress | src/app/dashboard/page.tsx:964-970 | the address text is empty exactly when the id is not in the list |
| OrderForm.AddressTextShape | src/app/dashboard/page.tsx:969 | the composed address is `store, line1, city, state - pincode` with `line2, ` inserted after line 1 and `landmark, ` inserted before the city exactly when each is non-empty; stated for all four cases |
| OrderForm.SelectAddress | src/app/dashboard/page.tsx:963-972 | choosing an address sets its id and composed text and nothing else |
| OrderForm.CreateEnabled | src/app/dashboard/page.tsx:1188 | the create button needs category, subcategory and address non-empty while no order is being created and no category is loading |
| OrderForm.CreateEnabledAfterChanges | src/app/dashboard/page.tsx:1188 | create is disabled right after a category change and needs an address id that is in the list; after choosing a category and then a subcategory it is enabled exactly when both ids are non-empty and there is an address while nothing is creating or loading |
| Dashboard.EmptyAddressForm | src/app/dashboard/page.tsx:66-83 | the empty address dialog is an active, non-primary store address of the signed-in customer (`user?.id || ''`) with every text field empty |
| Dashboard.ValidateAddress | src/app/dashboard/page.tsx:195-210 | a failing form fails with one of the four required-field messages, and a form passes exactly when none of line 1, city, state and pincode is blank |
| Dashboard.ValidationOrder | src/app/dashboard/page.tsx:195-210 | a form passes exactly when line 1, city, state and pincode all trim to something, and otherwise fails with the error of the first one that does not, in that order |
| Dashboard.ValidAddressIsFilled | src/app/dashboard/page.tsx:195-210 | a form the handler accepts has its four checked fields non-empty |
| Dashboard.AddAddressEnabled | src/app/dashboard/page.tsx:1373 | the Add Address button needs store name, contact person, line 1, city, state and pincode non-empty, untrimmed |
| Dashboard.BlankLine1PassesButton | src/app/dashboard/page.tsx:195-198 | a whitespace-only line 1 enables the Add Address button yet is refused by the handler |
| Dashboard.NamelessFormPassesChecks | src/app/dashboard/page.tsx:1373 | a form without store name or contact person passes the handler's checks while the button stays disabled |
| Dashboard.Fill | src/app/dashboard/page.tsx:263-268 | a picked detail replaces a field only when it is a non-empty string |
| Dashboard.LocationSelect | src/app/dashboard/page.tsx:257-270 | a map pick always sets the coordinates; each of line 1, line 2, landmark, city, state and pincode becomes the picked detail when that detail is truthy and keeps its value otherwise; nothing else changes |
| Dashboard.LocationSelectIdempotent | src/app/dashboard/page.tsx:257-270 | picking the same spot twice equals picking it once, and a pick never empties a filled field |
| Dashboard.EmptyDetailsOnlyMoveCoordinates | src/app/dashboard/page.tsx:257-270 | a pick with empty details only moves the coordinates |
| Dashboard.ApprovalSubmitEnabled | src/app/dashboard/page.tsx:1426 | the approval dialog's submit button needs a remark that is not blank |
| Dashboard.SubmitEnabledIffRemarkTrims | src/app/dashboard/page.tsx:1426 | the approval submit button is enabled exactly when the remark trims to something, and the remark then sent has no whitespace at either end |
| Dashboard.WordsDecideText | src/app/dashboard/page.tsx:298 | two toast texts built around different words differ |
| Dashboard.SuffixedTextsMisspell | src/app/dashboard/page.tsx:298-309 | appending `d` and `ing` to the wire name spells the success text right only for an approval and the error text right only for a rejection |
| Dashboard.CorrectedTextsDistinguishActions | src/app/dashboard/page.tsx:298-309 | the corrected success and error texts name the two actions distinctly |
| Dashboard.DashboardPage.constructor | src/app/dashboard/page.tsx:29-83 | the page starts with the initial draft, the empty address form, every dialog closed and nothing sent |
| Dashboard.DashboardPage.ChangeCategory | src/app/dashboard/page.tsx:805-811 | the category input applies `SelectCategory` to the draft, and nothing else of the page changes |
| Dashboard.DashboardPage.ChangeSubcategory | src/app/dashboard/page.tsx:830 | the subcategory input applies `SelectSubcategory` to the draft, and nothing else of the page changes |
| Dashboard.DashboardPage.ChangeField | src/app/dashboard/page.tsx:1089 | the plain inputs set only their own field of the draft, and nothing else of the page changes |
| Dashboard.DashboardPage.ChangeAddress | src/app/dashboard/page.tsx:963-972 | the address dropdown sets the id and the composed text of that saved address, and nothing else of the page changes |
| Dashboard.DashboardPage.HandleCreateOrder | src/app/dashboard/page.tsx:151-190 | the draft is posted; on success the dialog closes and the draft is cleared, otherwise both stay and the matching error is shown; the creating flag is off on every path |
| Dashboard.DashboardPage.HandleLocationSelect | src/app/dashboard/page.tsx:257-270 | a map pick updates the address form as `LocationSelect` says, and nothing else of the page changes |
| Dashboard.DashboardPage.HandleAddAddress | src/app/dashboard/page.tsx:193-254 | a form failing a check only shows that check's error and posts nothing; any other form is posted |
| Dashboard.DashboardPage.PostAddress | src/app/dashboard/page.tsx:212-253 | an accepted address closes and empties the dialog and reloads the list; a refused or failed post shows its error and leaves the dialog as it was |
| Dashboard.DashboardPage.OpenApprovalModal | src/app/dashboard/page.tsx:273-277 | opening records the approval and action, clears the remark and shows the dialog; nothing else of the page changes |
| Dashboard.DashboardPage.ChangeRemarks | src/app/dashboard/page.tsx:1403 | typing sets only the remark |
| Dashboard.DashboardPage.CloseApprovalModal | src/app/dashboard/page.tsx:1383 | the dialog's own close only hides it, keeping the approval, the remark and the rest of the page |
| Dashboard.DashboardPage.CancelApproval | src/app/dashboard/page.tsx:1415-1419 | Cancel hides the dialog and forgets the approval and the remark; nothing else of the page changes |
| Dashboard.DashboardPage.HandleApprovalActionSubmit | src/app/dashboard/page.tsx:280-311 | a request is sent exactly when there is an approval and the remark is not blank, carrying the trimmed remark, and the page then ends as `SendApproval` states; a blank remark only shows the mandatory-remarks error; without an approval nothing changes |
| Dashboard.DashboardPage.SendApproval | src/app/dashboard/page.tsx:289-310 | an accepted action shows `Successfully <action>d the request!` as the code spells it, closes the dialog, forgets approval and remark and reloads the pending approvals once; a refused one shows `Failed to <action> the request` and a thrown one `Error <action>ing request. Please try again.`, both leaving the dialog as it was |
| Dashboard.ApprovalScenario | src/app/dashboard/page.tsx:273-311 | opening the dialog and submitting a remark posts that remark trimmed; a blank remark posts nothing and leaves the dialog open on the same approval |
| MapPicker.Classify | src/components/GoogleMapPicker.tsx:72-90 | a component takes the first branch whose tag it carries: `street_number` first, `route` only without it, and it is ignored exactly when it carries none of the listed tags |
| MapPicker.LastMatchWins | src/components/GoogleMapPicker.tsx:78-89 | every field but the first line holds the name of the last component classified for it |
| MapPicker.StreetNumberResetsLine1 | src/components/GoogleMapPicker.tsx:72-77 | whatever precedes the last street number, a route included, does not reach the first line |
| MapPicker.StreetAndRouteOrder | src/components/GoogleMapPicker.tsx:72-77 | a route after a street number is appended with a space, and a route before it is lost |
| MapPicker.ExtractComponents | src/components/GoogleMapPicker.tsx:66-91 | the in-place `forEach` over the components yields the left fold of the branch chain from empty details |
| MapPicker.WithFallback | src/components/GoogleMapPicker.tsx:93-97 | a falsy first line with a formatted address becomes the trimmed text before the first comma, which holds no comma and no outer whitespace; otherwise the details are unchanged; no other field changes |
| MapPicker.FallbackTakesFirstPiece | src/components/GoogleMapPicker.tsx:94-97 | without a first line, the fallback is the trimmed text before the first comma of the formatted address, or the whole trimmed text when it has no comma |
| MapPicker.ReverseGeocode | src/components/GoogleMapPicker.tsx:43-106 | no Maps library, a failed call or no results give empty details; otherwise the first result's components are folded and the fallback applied |
| SearchBar.Classify | src/components/LocationSearchBar.tsx:71-87 | street number and route share the first branch; a component is a city exactly when it carries `locality` and none of the earlier tags |
| SearchBar.JoinAppend | src/components/LocationSearchBar.tsx:75 | appending a name after a space extends the space-joined line by that name |
| SearchBar.Line1JoinsStreetParts | src/components/LocationSearchBar.tsx:71-76 | with non-empty names, the first line is the street-number and route names joined by single spaces in arrival order, or absent when there are none |
| SearchBar.Line1Truthy | src/components/LocationSearchBar.tsx:71-76 | a first line built from non-empty names is non-empty |
| SearchBar.LastMatchWins | src/components/LocationSearchBar.tsx:77-87 | line 2, city, state, pincode and country hold the name of the last component classified for them |
| SearchBar.CollectComponents | src/components/LocationSearchBar.tsx:65-89 | the in-place `forEach` yields the left fold of the branch chain from empty components |
| SearchBar.WithFallback | src/components/LocationSearchBar.tsx:91-94 | a falsy first line becomes the place name when truthy, else the untrimmed text before the first comma of the formatted address; otherwise nothing changes; no other field changes |
| SearchBar.FirstPiece | src/components/LocationSearchBar.tsx:93 | the text before the first comma holds no comma and starts the formatted address |
| SearchBar.FirstPieceIsSplitHead | src/components/LocationSearchBar.tsx:93 | that text is `split(',')[0]` |
| SearchBar.DisplayAddress | src/components/LocationSearchBar.tsx:62-99 | the address is the formatted address when truthy, else the name when truthy, else empty |
| SearchBar.SearchBox.constructor | src/components/LocationSearchBar.tsx:44-46 | the box starts with an empty search text and nothing reported |
| SearchBar.SearchBox.OnPlaceChanged | src/components/LocationSearchBar.tsx:54-109 | a place with geometry sets the search text and is reported once with its folded components; one without only raises the error toast; nothing happens before the autocomplete loads |
| SearchBar.SearchBox.ClearSearch | src/components/LocationSearchBar.tsx:112-117 | clearing empties the search text and, when mounted, the input, and reports nothing |
| Quotations.ActionName | src/components/QuotationsTable.tsx:27 | the action is written as `approve` (7 characters) or `reject` (6 characters) |
| Quotations.FetchStatusText | src/components/QuotationsTable.tsx:51-57 | the list fetch has a fixed text exactly for statuses 500, 401 and 403, and 500 maps to the internal-server-error text |
| Quotations.ActionStatusText | src/components/QuotationsTable.tsx:161-176 | the action has a fixed, non-empty text exactly for statuses 500, 400, 401, 403 and 404, and 500 maps to the internal-server-error text |
| Quotations.ActionDefault | src/components/QuotationsTable.tsx:153 | the action's fallback text starts with `Failed to ` followed by the action |
| Quotations.FetchErrorMessage | src/components/QuotationsTable.tsx:45-57 | a failed list fetch reports the server's message if truthy, else the error's own message if truthy, else the status text, else `Error loading quotations` |
| Quotations.ActionErrorMessage | src/components/QuotationsTable.tsx:153-176 | a failed action reports the server's message if truthy, else the error's own message if truthy, else the status text, else the action's fallback text |
| Quotations.ChainsAreServerThenError | src/components/QuotationsTable.tsx:45-176 | both chains are the shared server-message-then-error-message precedence over their own status fallback |
| Quotations.ActionErrorNeverEmpty | src/components/QuotationsTable.tsx:153-176 | the error toast of a failed action is never empty |
| Quotations.MessagesOutrankStatus | src/components/QuotationsTable.tsx:47-50 | once a server or error message is present, the HTTP status no longer changes either chain's text |
| Quotations.FetchAndActionTextsDiffer | src/components/QuotationsTable.tsx:51-57 | statuses 400 and 404 get their own text for an action but fall through to the default text for the list fetch |
| Quotations.RefusedText | src/components/QuotationsTable.tsx:144-147 | a refused action's toast starts with `Failed to <action> quotation: ` |
| Quotations.AcceptedTextsDiffer | src/components/QuotationsTable.tsx:132-135 | the success toasts for approve and reject differ |
| Quotations.RemarkPayload | src/components/QuotationsTable.tsx:128 | the remark is left out of the request exactly when it is blank |
| Quotations.RemarkPayloadIsTrimOrUndefined | src/components/QuotationsTable.tsx:128 | the remark sent is the trimmed remark when that is non-empty, and `undefined` otherwise |
| Quotations.SentRemarkIsTrimmed | src/components/QuotationsTable.tsx:128 | a remark that is sent is non-empty with no whitespace at either end |
| Quotations.ApproveNeedsNoRemark | src/components/QuotationsTable.tsx:114-118 | an approval is always allowed; a rejection is allowed exactly when its remark trims to something |
| Quotations.SubmitButtonMatchesHandler | src/components/QuotationsTable.tsx:578-585 | with a target and nothing in flight, the Submit button is enabled exactly when the handler's own validation lets the request through |
| Quotations.SubmitDisabled | src/components/QuotationsTable.tsx:581-584 | the dialog's Submit button is disabled while an action is in flight, or for a rejection with a blank remark |
| Quotations.CancelDisabled | src/components/QuotationsTable.tsx:574 | the dialog's Cancel button is disabled while an action is in flight |
| Quotations.ShowsActions | src/components/QuotationsTable.tsx:318 | Approve and Reject are offered only for a quotation whose status is `sent` |
| Quotations.ActionButtonsDisabled | src/components/QuotationsTable.tsx:322-329 | a quotation's Approve and Reject buttons are disabled while its own action is in flight |
| Quotations.StatusLabel | src/components/QuotationsTable.tsx:82 | the badge text keeps the status's length and rest, with the first character upper-cased |
| Quotations.StatusLabelCapitalises | src/components/QuotationsTable.tsx:82 | a status starting with a lower-case letter is shown starting with the capital letter |
| Quotations.Toggle | src/components/QuotationsTable.tsx:215-217 | clicking expands the item exactly when it was not already the expanded one, and collapses all otherwise |
| Quotations.ToggleTwice | src/components/QuotationsTable.tsx:215-217 | two clicks on the same item leave it expanded only if it was expanded before, else nothing is expanded |
| Quotations.QuotationsTable.constructor | src/components/QuotationsTable.tsx:15-29 | the table starts loading, with no quotations, no error, nothing in flight or expanded, and the dialog closed with no target and an empty remark |
| Quotations.QuotationsTable.LoadQuotations | src/components/QuotationsTable.tsx:31-67 | the fetch ends with loading off; success stores the list, a refusal sets `Failed to fetch quotations` without a toast, and a failure sets and toasts its chained message |
| Quotations.QuotationsTable.ToggleExpanded | src/components/QuotationsTable.tsx:215-217 | the expanded item becomes the toggle of the old one |
| Quotations.QuotationsTable.OpenActionModal | src/components/QuotationsTable.tsx:99-103 | the dialog opens on the chosen quotation and action with an empty remark |
| Quotations.QuotationsTable.ChangeRemarks | src/components/QuotationsTable.tsx:29 | the remark becomes the typed text, and the dialog stays consistent |
| Quotations.QuotationsTable.CloseActionModal | src/components/QuotationsTable.tsx:105-109 | the dialog closes and forgets its target and remark |
| Quotations.QuotationsTable.BeginActionSubmit | src/components/QuotationsTable.tsx:111-129 | a request is sent exactly when there is a target and the validation passes; it carries the target and the remark payload and marks that quotation in flight, while a blank rejection only adds the mandatory-remark toast |
| Quotations.QuotationsTable.FinishActionSubmit | src/components/QuotationsTable.tsx:131-183 | nothing is in flight afterwards; an accepted action toasts success, takes the refetched list if that succeeds and closes the dialog unless the refetch throws; a refused or thrown action toasts its text and changes neither list nor dialog |
| Quotations.QuotationsTable.HandleActionSubmit | src/components/QuotationsTable.tsx:111-184 | the request sent, if any, is the target's action with the trimmed-or-absent remark, and the toasts, the list, the dialog and the in-flight marker then end as `FinishActionSubmit` states; without a request only the reject-needs-remarks toast (when there is a target) is added |
| Quotations.ApproveAndRejectWithoutRemark | src/components/QuotationsTable.tsx:111-129 | with an empty remark, approving sends the request without a remark while rejecting sends nothing and leaves the rejection dialog open |
| Roles.FilterByRole | src/app/roles/page.tsx:179-186 | `all` shows every employee; any other selection shows exactly the employees whose role id is the selection, never more than there are |
| Roles.FilterKeepsOrder | src/app/roles/page.tsx:183 | filtering a concatenation is the concatenation of the filtered parts, so the order of the list is kept |
| Roles.FilterSingle | src/app/roles/page.tsx:180-184 | one employee is kept exactly when `all` is selected or their role id is the selection |
| Roles.FindRole | src/app/roles/page.tsx:209 | the lookup fails exactly when no role has the id, and otherwise returns the first role with that id |
| Roles.UpdateRole | src/app/roles/page.tsx:213-218 | the list keeps its length; each employee with the id gets the new role and its id, and every other employee is unchanged |
| Roles.UpdateKeepsIdentity | src/app/roles/page.tsx:213-216 | a role change alters only an employee's role and role id |
| Roles.FilterUpdateCommute | src/app/roles/page.tsx:179-219 | when the change moves nobody into or out of the selected role, mapping the shown list in place equals filtering the updated full list |
| Roles.MovedEmployeeLeavesView | src/app/roles/page.tsx:179-218 | once the filter runs again, an employee moved to a role other than the selected one is no longer shown |
| Roles.FailureTextPrecedence | src/app/roles/page.tsx:126-131 | each of the page's failure texts is never empty and falls back to its default when neither the server nor the error has a message |
| Roles.RolesPage.constructor | src/app/roles/page.tsx:92-102 | the page starts with empty lists, `all` selected, both loads pending, no error and nothing in flight |
| Roles.RolesPage.ApplyRoleFilter | src/app/roles/page.tsx:179-186 | afterwards the shown employees are the filter of all employees by the selection |
| Roles.RolesPage.LoadEmployees | src/app/roles/page.tsx:105-141 | an accepted list becomes all employees (and is filtered again); a refusal or failure keeps both lists and sets and toasts its text; loading ends off |
| Roles.RolesPage.LoadRoles | src/app/roles/page.tsx:144-176 | an accepted list becomes the roles; a refusal or failure keeps them and only toasts its text; loading ends off |
| Roles.RolesPage.HandleRoleChange | src/app/roles/page.tsx:179-191 | the selection becomes the chosen role and the shown employees follow it |
| Roles.RolesPage.BeginRoleUpdate | src/app/roles/page.tsx:194-203 | the employee is marked in flight and the PUT carrying the employee and role ids is sent |
| Roles.RolesPage.FinishRoleUpdate | src/app/roles/page.tsx:207-241 | nothing is in flight afterwards; only an accepted change to a known role updates the employee in the lists, and each outcome gets its own success or error toast |
| Roles.RolesPage.UpdateEmployeeRole | src/app/roles/page.tsx:194-242 | the request always carries the two ids; the lists change only for an accepted change to a known role, and the shown list stays the filter of all employees |

## Left out

- HTTP wrappers (`src/api/*.ts`, `src/lib/axios.ts`, `src/lib/api.ts`): the server is not visible. Each call is an abstract outcome parameter.
  - `src/lib/axios.ts` and `src/lib/api.ts` only log a 401, so the model clears the session on 401 only for `authApi`.
- `quotationAction` is imported by `src/components/QuotationsTable.tsx` but not defined in `src/api/quotations.ts`. It is kept fully abstract: its request is recorded and its outcome is a parameter.
- The list fields of `B2BQuotationItem` that are only displayed (amounts, dates, booking details) are not modelled. The quotation keeps its id, number and status.
- `JSON.parse`/`JSON.stringify` and the js-cookie library are not modelled.
  - A stored cookie is either plain text or an already decoded record.
  - A text that does not parse, or parses to `null`, is the plain-text case; one that parses to a number, string, boolean or array is kept as text of its own kind.
  - The `expires`, `secure` and `sameSite` options of js-cookie are not kept.
- `Date` and locale formatting (`new Date(...)`, `Date` parsing, `toISOString`, `toLocaleDateString`, `toLocaleTimeString`, `toUTCString`) are not modelled.
  - Days are day numbers.
  - The conversions are functions in a `Calendar` parameter.
  - Display labels are not modelled.
  - The host-timezone shift of `toISOString()` is not modelled.
  - The clock (`Date.now()`, `new Date().toISOString()`) is a parameter.
- Floating point is not modelled: `formatCurrency`, the map coordinates, `toFixed(6)` and the latitude/longitude strings. Coordinates are `real` values that are only copied, never computed with.
- Google Maps script loading, the `Geocoder` and `Autocomplete` objects and browser geolocation are not modelled. Only the folding of a returned component list is.
- JSX, the markup of every component, loading toasts and console output are not modelled. Markup is kept only where it decides a button's enablement or what the guard shows.
- The dashboard's data loading is not modelled:
  - `handleCreateOrderModalOpen`'s four sequential fetches;
  - the provider search fired from the time-slot handler;
  - the city-zone fetch;
  - the provider cards.
  - Their results would only fill catalogs that the model takes as inputs.
- The interleaving of asynchronous handlers is not modelled. Each handler is split at its `await` into a step that sends and a step that handles the outcome. Each step is atomic.
- NextAuth configuration, the login, orders and quotation pages, `FormComponents.tsx` and `ReduxProvider.tsx` are presentational or routing-only. They are not part of this model.
- Two behaviours are kept exactly as the code has them:
  - a rejected login clears any earlier session in the store (`src/store/authSlice.ts:104-110`);
  - choosing a category keeps `filterAttributeId` and `filterOption` and clears only `subcategoryId` and `segmentOption` (`src/app/dashboard/page.tsx:805-811`).
- GetCurrentToken: a `b2b_token` cookie whose text is an object's JSON reads as no token, where the code returns that raw text. Object JSON is held only decoded, and the service itself only ever writes the login user's id under `b2b_token`.
- AuthorizationHeader: inherits the gap of `GetCurrentToken` for a `b2b_token` cookie holding an object's JSON.
- IsAuthenticated: inherits the gap of `GetCurrentToken` for a `b2b_token` cookie holding an object's JSON.
- StatusLabel: upper-cases only the ASCII letters `a`-`z`. JavaScript's `toUpperCase` also maps other letters, some of them to two characters ('ß' becomes "SS").
- SetCookie: the write is kept in the document's log of written texts, but the `cookie` text that `GetCookie` reads is not changed by it. How a browser merges an assignment into `document.cookie` is not modelled.
- DeleteCookie: like `SetCookie`, the write is logged but does not change the text `GetCookie` reads.
- CompanyLine: a `company_name` of `true` shows the line, but React prints nothing for a boolean, so the line is empty on screen. The model records the value `true`. A `NaN` number is not modelled.
- DeleteCookieText: `deleteCookie` writes the epoch as `... 00:00:00 UTC` where `setCookie`'s `toUTCString` writes `... GMT`, so no `setCookie` text begins with it; the model keeps the two literals as the code has them and only relates their layouts.
- getStatusBadge (`src/components/QuotationsTable.tsx:69-81`): the badge colour is markup that decides no enablement, so it is not modelled; neither is the plain-object lookup that, for a status named like an `Object.prototype` property, skips the grey fallback.
- Toasts: each page's toast list records every `toast` call in order. `react-hot-toast` replaces a toast that has the same `id` ('creating-order' and 'add-address' in `src/app/dashboard/page.tsx`, 'quotation-action' in `src/components/QuotationsTable.tsx`), so the screen shows only the last of those calls; that replacement is not modelled.

## Findings

| source | as written | input that shows it | evidently intended | confidence | as-written member | corrected member |
|---|---|---|---|---|---|---|
| src/app/dashboard/page.tsx:298-309 | the approval toasts append `d` and `ing` to the wire name of the action: "Successfully rejectd the request!" and "Error approveing request. Please try again." | action `reject` for the success text; action `approve` for the error text | the past tense and gerund of the action ("rejected", "approving") | not executed | Dashboard.SuffixedTextsMisspell | Dashboard.CorrectedTextsDistinguishActions |
