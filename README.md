# hei!local web client: session, request pipeline and feed/map synchronisation

This Dafny project models the behavioural core of the hei!local single-page client. The client shows a feed of restaurant videos beside a map of the same restaurants. The model covers:

- **Token session store** (`Token`): the two local-storage entries `auth_token` and `refresh_token`, as a class with one field per key.
- **Authenticated request pipeline** (`ApiClient`): the request interceptor attaches `Authorization: Bearer <token>`, the header form of section 2.1 of RFC 6750. The response interceptor answers a 401 with one refresh of the access token and one re-send, guarded by the request's `_retry` mark. `OnError` is one run of the error interceptor. `Dispatch` is one logical request from first send to settlement. The methods `InterceptRequest`, `InterceptError` and `Send` do the same on a mutable request object and the store, and are proved equal to those functions.
- **Auth endpoints** (`AuthApi`) and the **auth context** (`AuthContext`): login, Google login, logout, current user and register, built on `Send`. The context holds the `user` / `isLoading` state and runs `checkAuth`.
- **Route guards** (`App`): `ProtectedRoute`, `PublicRoute` and the catch-all route, as decisions over `(isLoading, isAuthenticated)`.
- **Location list** (`LocationContext`): load/refresh and the like counter.
- **Video feed** (`VideoPlayer`): the id lookup and scroll target. It also covers the debounced scroll-to-index report, the play/pause loop, the media choice and the star string.
- **Map** (`MapView`): the centre, the geolocation fallback and the place markers.
- **Home page** (`HomePage`): owns the selection and the current index, and wires feed and map together.

The backend is an oracle. `server: Request -> Reply<D>` answers every request that is sent, and a `RefreshOutcome` value is the answer of `POST /auth/refresh`. The redirect `window.location.href = '/login'` is recorded as an out-parameter `redirect` and passed up to every caller. Scroll offsets and heights are natural numbers of pixels. The 100 ms debounce is modelled as events: `Scroll(top)` is a scroll event, and `Quiet` is a 100 ms period with no scroll event.

In these places the code may surprise a reader; the model follows the code:

- A 401 with no refresh token (or an empty one) neither clears the tokens nor redirects. It rejects with the original error (`MissingRefreshTokenFallsThrough`).
- A failed refresh rejects with the refresh call's error, not with the original one (`RefreshFailureLogsOut`).
- Logout clears the tokens and then rethrows a failure of the remote call. This happens in `AuthApi.Logout`, `AuthProvider.Logout` and `HandleLogout`, so logout can fail visibly.
- A failed `checkAuth` leaves `user` as it was and clears the tokens (`CheckAuth`).
- The like counter changes only after the remote like succeeded. It is not an optimistic update (`LocationProvider.AddLike`).
- The settled index is `Math.round(scrollTop / clientHeight)`. It is not clamped to the list, and it is reported on every settle even when unchanged (`SettledIndex`, `SettleAtTarget`, `RepeatsUnchangedIndex`).

## Model

| member | source | states |
|---|---|---|
| Token.TokenStorage.constructor | src/utils/token.ts:6-7 | the store starts as whatever an earlier session persisted under the two keys |
| Token.TokenStorage.SetToken | src/utils/token.ts:11-13 | after `setToken(t)` the access token is `t`; the refresh token (a distinct key) is unchanged |
| Token.TokenStorage.GetToken | src/utils/token.ts:16-18 | returns the stored access token, null when absent |
| Token.TokenStorage.SetRefreshToken | src/utils/token.ts:21-23 | after `setRefreshToken(t)` the refresh token is `t`; the access token is unchanged |
| Token.TokenStorage.GetRefreshToken | src/utils/token.ts:26-28 | returns the stored refresh token, null when absent |
| Token.TokenStorage.ClearTokens | src/utils/token.ts:31-34 | both tokens are absent afterwards, whatever the old state (so clearing twice equals clearing once) |
| Token.TokenStorage.HasToken | src/utils/token.ts:37-39 | true iff an access token is stored and it is not the empty string |
| ApiClient.AttachBearer | src/api/client.ts:21-29 | a truthy access token becomes `Authorization: Bearer <token>`; every other header, the URL and `_retry` are unchanged; a missing or empty token leaves the request untouched |
| ApiClient.OnError | src/api/client.ts:42-86 | a 401 on an unmarked request sets `_retry` first; refresh is called iff the request is a first-time 401 and a truthy refresh token exists; the request is retried iff that refresh succeeded; otherwise the original error is rejected and the store is unchanged; the refresh token is kept or everything is cleared |
| ApiClient.Dispatch | src/api/client.ts:37-87 | one logical request sends at most two requests and calls refresh at most once; the first send carries the interceptor's header; a re-send follows a refresh and carries `_retry`; a request already marked never refreshes, never changes the store and never redirects |
| ApiClient.SuccessPassesThrough | src/api/client.ts:38-41 | a successful response is returned unchanged; no refresh, no token change |
| ApiClient.NoRefreshWithoutUnauthorized | src/api/client.ts:75-85 | any answer other than 401 (403, 500, others, no response) is rejected as it came: no refresh, no re-send, no token change |
| ApiClient.RefreshThenRetryOnce | src/api/client.ts:50-65 | 401 with a refresh token and a successful refresh: the new access token is stored, the refresh token kept, the request re-sent exactly once with `Bearer <new>` and `_retry`, and the re-send's answer (even another 401) is final |
| ApiClient.RefreshFailureLogsOut | src/api/client.ts:67-72 | a failed refresh clears both tokens, redirects to /login and rejects with the refresh error |
| ApiClient.MissingRefreshTokenFallsThrough | src/api/client.ts:46-85 | a 401 with no or empty refresh token does not clear, does not redirect, and rejects with the original 401 |
| ApiClient.RequestConfig.constructor | src/api/client.ts:11-17 | a new request carries only the client's JSON content-type header and no `_retry` mark |
| ApiClient.InterceptRequest | src/api/client.ts:20-34 | the request object is changed exactly as `AttachBearer` says, from the token read from the store |
| ApiClient.InterceptError | src/api/client.ts:42-86 | the request object, the store, the action and the redirect are exactly those of `OnError` |
| ApiClient.Send | src/api/client.ts:37-87 | the store, the request object, the result and the redirect are exactly those of `Dispatch` |
| AuthApi.PostLogin | src/api/auth.ts:34-42 | on success both tokens of the response are stored and the body returned; on failure the rejection propagates and no token is written beyond what the pipeline did |
| AuthApi.Login | src/api/auth.ts:34-42 | `PostLogin` on `/auth/login` |
| AuthApi.GoogleLogin | src/api/auth.ts:47-55 | `PostLogin` on `/auth/google` |
| AuthApi.Logout | src/api/auth.ts:60-67 | both tokens are cleared whatever the remote call does, and the remote call's failure is still the result |
| AuthApi.GetCurrentUser | src/api/auth.ts:72-75 | returns the user from `/auth/me`; the endpoint writes nothing to the store beyond what the pipeline did |
| AuthApi.Register | src/api/auth.ts:80-83 | returns the response body and stores no token |
| AuthApi.FailedLoginStoresNothing | src/api/auth.ts:35-39 | a login the backend rejects with a status other than 401 leaves the store exactly as it was |
| AuthContext.AuthProvider.IsAuthenticated | src/contexts/AuthContext.tsx:87 | `!!user`: authenticated exactly when a user object is held |
| AuthContext.AuthProvider.constructor | src/contexts/AuthContext.tsx:33-34 | starts with no user and loading |
| AuthContext.AuthProvider.CheckAuth | src/contexts/AuthContext.tsx:41-54 | loading always ends; with no truthy token nothing is fetched and nothing changes; on success `user` is the fetched user; on failure the tokens are cleared and `user` stays |
| AuthContext.AuthProvider.LoginAt | src/contexts/AuthContext.tsx:56-74 | on success `user` is the response's user and the response's tokens are stored; on failure the error is rethrown and `user` is unchanged |
| AuthContext.AuthProvider.Login | src/contexts/AuthContext.tsx:56-64 | `LoginAt` on `/auth/login` |
| AuthContext.AuthProvider.GoogleLogin | src/contexts/AuthContext.tsx:66-74 | `LoginAt` on `/auth/google` |
| AuthContext.AuthProvider.Logout | src/contexts/AuthContext.tsx:76-82 | `user` becomes null and the tokens are cleared even when the API call fails; that failure is rethrown |
| App.ProtectedRoute | src/App.tsx:13-26 | the loading screen exactly while loading; the page exactly when loaded and authenticated; any redirect goes to /login |
| App.PublicRoute | src/App.tsx:29-42 | the loading screen exactly while loading; the page exactly when loaded and not authenticated; any redirect goes to "/" |
| App.Route | src/App.tsx:44-72 | only "/" and "/login" render a page ("/" the home page); every redirect goes to "/" or "/login"; any other path redirects to "/" |
| App.GuardsPartition | src/App.tsx:13-42 | while loading both guards show the loading screen; otherwise `ProtectedRoute` renders iff authenticated and `PublicRoute` iff not, so exactly one of them renders |
| App.EveryPathSettles | src/App.tsx:44-72 | from any path, including unmatched ones that go to "/", two redirects at most reach the loading screen, the home page when authenticated, or the login page when not |
| LocationContext.AddLikeTo | src/contexts/LocationContext.tsx:51-55 | same length and order; every item with the id has `likes + 1`, every other item is unchanged |
| LocationContext.AddLikeAbsent | src/contexts/LocationContext.tsx:51-55 | an id no item carries leaves the list unchanged |
| LocationContext.AddLikeTotal | src/contexts/LocationContext.tsx:51-55 | the list's total likes grow by exactly the number of items carrying the id |
| LocationContext.AddLikeOnce | src/contexts/LocationContext.tsx:51-55 | with unique ids the total likes grow by one if the id is present and by nothing otherwise |
| LocationContext.LocationProvider.constructor | src/contexts/LocationContext.tsx:20-21 | starts with the empty list and loading |
| LocationContext.LocationProvider.LoadLocations | src/contexts/LocationContext.tsx:28-40 | the list is the fetched one on success and empty on failure; loading always ends |
| LocationContext.LocationProvider.RefreshLocations | src/contexts/LocationContext.tsx:42-44 | the same effect as `LoadLocations` |
| LocationContext.LocationProvider.AddLike | src/contexts/LocationContext.tsx:46-60 | the list gets `AddLikeTo` only after the remote like succeeded; on failure the list is unchanged and the error rethrown |
| VideoPlayer.FindIndex | src/components/VideoPlayer.tsx:18 | the first position whose id matches, or -1 exactly when no item matches |
| VideoPlayer.ScrollTarget | src/components/VideoPlayer.tsx:62-68 | the target is the top of item `index`: a whole multiple of the item height that divides back to `index` |
| VideoPlayer.SettledIndex | src/components/VideoPlayer.tsx:33-35 | the index whose item top is nearest to the offset, a half rounding up: `2kh <= 2p + h < 2kh + 2h` |
| VideoPlayer.SettleAtTarget | src/components/VideoPlayer.tsx:62-68 | settling at the scroll target of any index (in the list or not) reports that same index |
| VideoPlayer.Emissions | src/components/VideoPlayer.tsx:30-38 | the reports of the debounced handler for a sequence of scroll events and quiet periods; each report needs a scroll and a quiet period, so there are at most half as many reports as events |
| VideoPlayer.ScrollsReportNothing | src/components/VideoPlayer.tsx:30-32 | scroll events only reschedule the timer: they report nothing |
| VideoPlayer.LastScrollWins | src/components/VideoPlayer.tsx:30-38 | a burst of scroll events and then a quiet period reports once, the index of the offset the last event left |
| VideoPlayer.RepeatsUnchangedIndex | src/components/VideoPlayer.tsx:32-36 | an unchanged index is reported again at every settle |
| VideoPlayer.FeedContainer.constructor | src/components/VideoPlayer.tsx:25-29 | offset 0, no timer pending, nothing reported |
| VideoPlayer.FeedContainer.OnScroll | src/components/VideoPlayer.tsx:30-32 | the offset moves and a timer is pending; the reports stay as `Emissions` of the events |
| VideoPlayer.FeedContainer.OnQuiet | src/components/VideoPlayer.tsx:32-37 | reports iff a timer was pending, the rounded index of the current offset; no timer is pending afterwards |
| VideoPlayer.FeedContainer.ScrollToIndex | src/components/VideoPlayer.tsx:62-70 | the container ends at `index * clientHeight` with a timer pending |
| VideoPlayer.FeedContainer.FollowSelection | src/components/VideoPlayer.tsx:16-23 | a selection found in the list scrolls to its first position; no selection or no match (-1) scrolls nowhere |
| VideoPlayer.SyncPlayback | src/components/VideoPlayer.tsx:47-60 | every registered video plays iff its index is the current one, so at most one plays; a video element is registered only at an item whose media is `Video`, so whatever plays is such an item |
| VideoPlayer.MediaOf | src/components/VideoPlayer.tsx:81-116 | a truthy YouTube id wins, then a truthy video URL, then a truthy image URL, else the placeholder; each case carries that very field's value |
| VideoPlayer.Repeat | src/components/VideoPlayer.tsx:134-135 | `repeat(n)` gives exactly `n` copies of the character |
| VideoPlayer.StarString | src/components/VideoPlayer.tsx:133-136 | the star string exists iff `0 <= rating < 6` (otherwise `repeat` throws); then it has exactly 5 stars, of which the first `floor(rating)` are filled |
| MapView.UserLocationAfter | src/components/MapView.tsx:29-48 | a successful lookup gives the reported position; a missing geolocation API or a failed lookup gives the default coordinate |
| MapView.MapCenter | src/components/MapView.tsx:50-59 | the selection's coordinates when a location is selected, whatever the user location; otherwise the user location when known, else the default |
| MapView.PlaceMarkers | src/components/MapView.tsx:144-166 | one marker per location, in order, at its coordinates; clicking marker `i` forwards location `i`; a marker is red and bouncing iff its id is the selected id |
| MapView.MarkerClick | src/components/MapView.tsx:80-82 | the click handler forwards the location object the marker was rendered for |
| MapView.CenterWithoutSelection | src/components/MapView.tsx:28-59 | with no selection the map centres on the geolocated position, or on the default coordinate when the lookup is unsupported, fails or has not answered |
| MapView.AtMostOneHighlighted | src/components/MapView.tsx:149-164 | with unique ids at most one marker is highlighted |
| HomePage.View | src/pages/HomePage.tsx:30-37 | feed and map render only once the locations have loaded |
| HomePage.ViewFollowsLoading | src/pages/HomePage.tsx:30-37 | with the location provider's state: the loading screen while the first load runs, feed and map once it has ended, whether the fetch succeeded or failed |
| HomePage.HomePageState.constructor | src/pages/HomePage.tsx:17-18 | no selection, index 0 |
| HomePage.HomePageState.HandleLocationSelect | src/pages/HomePage.tsx:20-22 | sets the selection only; the index is not touched |
| HomePage.HomePageState.OnIndexChange | src/pages/HomePage.tsx:55-60 | the feed's report is the only writer of the current index, and the selection is not touched |
| HomePage.HomePageState.HandleLogout | src/pages/HomePage.tsx:24-28 | without confirmation nothing changes; with it the context's logout runs and its failure propagates |
| HomePage.HomePageState.OnMarkerClick | src/pages/HomePage.tsx:63-67 | a marker click selects the marker's location; when that changes the selection, the feed scrolls to its first position in the list; re-clicking the selected marker leaves the feed where it is |
| HomePage.HomePageState.OnFeedQuiet | src/pages/HomePage.tsx:55-60 | a pending settle becomes the current index; without one the index stays; the offset is unchanged and no timer is left pending |
| HomePage.SelectionSettlesOnIndex | src/pages/HomePage.tsx:55-67 | with unique ids, selecting the item at `k` makes the feed report `k` when the scroll stops, whatever offsets the smooth scroll passed through |
| HomePage.MapAgreesWithSelection | src/pages/HomePage.tsx:63-67 | the marker clicked at `k` selects item `k`; the map centres on it; it is the only highlighted marker |

## Left out

- HTTP transport, axios, JSON bodies and timeouts. The backend is a function from the sent request to a reply. Request bodies (credentials, the refresh token sent to `/auth/refresh`) are not part of the modelled request.
- Axios copies the config when a request is re-sent; the model re-sends the same request object.
- A refresh response without an `accessToken` field, where JavaScript would store the string "undefined", is not modelled.
- Console output: the 403 and 500 messages of the error interceptor, the `console.error` calls in `checkAuth`, login and Google login, in `loadLocations` and `addLike`, the map's load and error callbacks, and the geolocation `console.warn`. None of it affects state.
- Concurrency: several requests in flight that each refresh on their own. The model runs one request at a time, and each `await` is atomic. So the intermediate `isLoading = true` during a load is not observable.
- `window.location.href`: a full page load. The model only records the target; it does not reset the application state.
- `VideoPlayer.FeedContainer.constructor`: requires `clientHeight > 0`. A hidden container of height 0, where the division gives NaN or Infinity, is not modelled.
- `VideoPlayer.FeedContainer.ScrollToIndex`: a smooth scroll is collapsed to its final scroll event. The browser firing no event when the target equals the current offset is not modelled. Intermediate offsets appear only in `SelectionSettlesOnIndex`.
- `VideoPlayer.SyncPlayback`: requires the registered video elements to be distinct objects, as React's DOM gives them, and to sit at `Video` items of the current list. Entries left in `videoRefs` after the list shrinks or changes are not modelled. The rejected `play()` promise (autoplay blocked) is not modelled; "playing" means `play()` was called.
- Effect cleanup on unmount (removing the scroll listener, clearing the timer) and the effect re-running when `locations` changes.
- Fractional scroll offsets, floating-point coordinates and NaN ratings. Offsets are natural numbers, and ratings and coordinates are exact reals.
- Google Maps loading and errors, the API-key warnings, the map options, and the green user-location marker. These are rendering only.
- YouTube iframe URLs, CSS and JSX markup, and the login form in `src/pages/LoginPage.tsx`.
- `src/api/locations.ts` is not part of this model. The outcome of its fetch and like calls is an input to `LocationContext`.
- `src/config.ts` and `src/main.tsx` are not part of this model. `src/types.ts` is used only as the `LocationInfo` datatype.
- React Router's path normalisation (trailing slashes, case) and history replacement.
- `HomePage.HomePageState.OnMarkerClick`: compares selections by value, where React compares object identity. Two distinct location objects with equal fields count as the same selection.
