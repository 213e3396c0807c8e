# Hotel guest assistant front end: a verified model of its core rules

The hotel guest assistant is a React single-page application. A guest logs
in with a reservation code, checks in, orders room service, reports
maintenance issues, asks a chatbot, rates the stay, browses local attractions
and checks out. Most of it is page markup. This project models the rules
underneath that markup and proves them:

- **The two shared stores.**
  - The preference store (`AppStateContext`) holds the language, the
    do-not-disturb flag and one active-request slot per kind.
  - The session store (`AuthContext`) handles login, check-in completion and
    logout.
  - Each is a class whose fields the named operations replace. Pure
    transition functions carry the multi-call laws.
- **The API layer without the network.**
  - `apiClient` builds the request URL and header map. It adds a Bearer
    `Authorization` header as in section 2.1 of RFC 6750, with caller headers
    winning.
  - It chooses the error message of a non-OK response.
  - The `get`/`post`/`put`/`del` wrappers fix the method and body.
  - `authService` persists and removes the token.
  - `roomServiceApi` unwraps the menu envelope.
  - `fetch` results and browser storage are inputs: a settled `Response`, and
    a map-backed `LocalStorage` class.
- **The page-level computations.**
  - CheckOut: the late-checkout bill recalculation and its bill-sum invariant.
  - RoomService: the order list, its total and the order payload.
  - Feedback: the tag lists kept as sets in lists, the ratings and the quick
    feedback box.
  - LocalAttractions: the attraction filter.
  - Maintenance: the issue truncation and the guarded write of the
    maintenance slot.
  - Chatbot: the message log.
  - StatusNotification: the "Requested at" label and the icons.
  - FloatingLanguageSelector: the language lookup with its English fallback.
  - Home: the do-not-disturb commit protocol, the option routing and which
    notifications are shown.

A promise is modelled by how it settles. `Settled<T>` is either `Resolved`
with a value or `Rejected` with the message of the thrown `Error`. `None`
stands for a thrown value that is not an `Error`.

JavaScript's `a || b` on an optional string treats the empty string as
absent (`Common.OrElse`). `err instanceof Error ? err.message : fallback`
keeps an empty message (`Common.MessageOr`).

Money and distances are exact `real` numbers. Clock readings such as
`Date.now()` and the formatted request time are parameters.

Logging out leaves `authToken` in storage. `AuthContext.logout`
(src/context/AuthContext.tsx:72-80) only resets the session record, and the
token is removed only by `logoutUser` (src/api/authService.ts:43-45), which
the session store never calls. `AuthContext.AuthProvider.Logout` therefore
touches no storage.

## Model

| member | source | states |
|---|---|---|
| Common.OrElse | src/api/apiClient.ts:11 | `s \|\| fallback`: the result is the fallback exactly when the string is absent, empty, or equal to the fallback; otherwise it is the string |
| Common.ParseNatToString | src/pages/RoomService.tsx:59 | reading back the decimal rendering of a number gives the number |
| Common.NatToStringInjective | src/pages/RoomService.tsx:59 | different clock readings give different id suffixes |
| Common.BlankIffAllWhitespace | src/pages/Chatbot.tsx:56 | `!s.trim()` holds exactly when every character is ECMAScript whitespace or a line terminator |
| Common.Filter | src/pages/LocalAttractions.tsx:129 | every element of the result is in the input and passes, every element of the input that passes is in the result, and the result is no longer than the input |
| Common.FilterKeepsMultiplicity | src/pages/RoomService.tsx:65 | `filter` keeps every copy of an element that passes and no copy of one that fails: each element occurs in the result as often as in the input, or not at all |
| Common.FilterIsSubsequence | src/pages/RoomService.tsx:65 | the result of `filter` is an order-preserving subsequence of its input |
| ApiClient.ConfiguredBaseUrl | src/api/apiClient.ts:4 | a non-empty configured base URL is used; an absent or empty one falls back to `https://api.hotelassistant.com` |
| ApiClient.PrepareRequest | src/api/apiClient.ts:18-37 | the URL is base + endpoint, and method and body pass through. The header keys are exactly Content-Type, the caller's keys, and Authorization when a non-empty token is stored. Caller headers win, Content-Type defaults to `application/json`, and without a caller override Authorization is present iff a non-empty token is stored, with value `Bearer <token>` |
| ApiClient.HandleResponse | src/api/apiClient.ts:7-15 | resolves iff the status is 200-299 and the body parses, with the body unvalidated. A non-OK status rejects with the body's non-empty `message`, else `API error: <status>`. An OK body that does not parse rejects with the parser's error |
| ApiClient.Settle | src/api/apiClient.ts:39-45 | a transport failure is re-raised unchanged; a response is settled by `HandleResponse` |
| ApiClient.ApiRequest | src/api/apiClient.ts:18-46 | the request handed to `fetch` has the URL base + endpoint and the caller's method and body. Its header keys are exactly Content-Type, the caller's keys and, when a non-empty token is stored, Authorization. Caller headers win, Content-Type defaults to `application/json`, and without a caller override Authorization is `Bearer <token>` iff a non-empty token is stored. The caller sees `Settle` of what `fetch` settled to |
| ApiClient.WrappersFixMethodAndBody | src/api/apiClient.ts:49-69 | `get`/`del` set GET/DELETE with no body; `post`/`put` set POST/PUT with the data as body; none adds headers |
| ApiClient.ServerErrorWithoutBody | src/api/apiClient.ts:8-11 | a 500 whose body does not parse rejects with `API error: 500` |
| AuthService.LoginUser | src/api/authService.ts:10-24 | posts `{code}` to `/auth/login` and returns the reply unchanged. `authToken` is written iff the reply succeeded with a non-empty token; otherwise storage is untouched, on a throw too |
| AuthService.CheckInCall | src/api/authService.ts:34-41 | check-in posts the form unchanged to `/checkin` |
| AuthService.LogoutUser | src/api/authService.ts:43-45 | `authToken` is removed and every other key keeps its value |
| RoomServiceApi.UnwrapMenu | src/api/roomServiceApi.ts:5-16 | resolves with `data` iff the envelope succeeded with data. A failed envelope rejects with its message or the fallback, and a thrown error is re-raised |
| RoomServiceApi.GetRoomServiceMenu | src/api/roomServiceApi.ts:5-16 | resolves with `data` iff the envelope succeeded with data; a failed envelope rejects with its message or `Failed to fetch menu`, and a thrown error is re-raised unchanged |
| RoomServiceApi.GetRestaurantMenu | src/api/roomServiceApi.ts:44-55 | same rule with `Failed to fetch restaurant menu`: resolves with `data` iff success with data, and a thrown error is re-raised unchanged |
| RoomServiceApi.MenuCallsFetchTheirEndpoints | src/api/roomServiceApi.ts:5-55 | the menu fetches are plain GETs, without body or extra headers, to `/food/room-service-menu` and `/food/restaurant-menu` |
| RoomServiceApi.PlaceRoomServiceOrderCall | src/api/roomServiceApi.ts:35-42 | the order is posted unchanged to `/food/room-service/order` |
| RoomServiceApi.MakeReservationCall | src/api/roomServiceApi.ts:69-76 | the reservation is posted unchanged to `/food/reservation` |
| RoomServiceApi.MenuFailureUsesMessage | src/api/roomServiceApi.ts:8-9 | a failed envelope with a message rejects with it; an empty message gives the fallback |
| AppStateContext.WithLanguage | src/context/AppStateContext.tsx:35-37 | only the language changes, to the given string |
| AppStateContext.WithDndToggled | src/context/AppStateContext.tsx:39-41 | only the flag changes, to its negation |
| AppStateContext.WithSlot | src/context/AppStateContext.tsx:43-64 | the named slot takes the value; the other slot, the language and the flag are unchanged |
| AppStateContext.ToggleTwice | src/context/AppStateContext.tsx:39-41 | toggling twice is the identity |
| AppStateContext.SecondAddOverwrites | src/context/AppStateContext.tsx:47-53 | two adds to one slot leave only the second request |
| AppStateContext.RemoveIdempotent | src/context/AppStateContext.tsx:56-64 | removing twice is the same as removing once |
| AppStateContext.AddThenRemove | src/context/AppStateContext.tsx:43-64 | add then remove leaves the slot empty; from an empty slot it restores the whole state |
| AppStateContext.AppStateProvider.constructor | src/context/AppStateContext.tsx:26-33 | starts with language `en`, do-not-disturb off, both slots empty |
| AppStateContext.AppStateProvider.SetCurrentLanguage | src/context/AppStateContext.tsx:35-37 | stores any string; the flag and slots are unchanged |
| AppStateContext.AppStateProvider.ToggleDnd | src/context/AppStateContext.tsx:39-41 | negates the flag and nothing else |
| AppStateContext.AppStateProvider.AddActiveRequest | src/context/AppStateContext.tsx:43-54 | the named slot holds the request; the other slot, language and flag are unchanged |
| AppStateContext.AppStateProvider.RemoveActiveRequest | src/context/AppStateContext.tsx:56-64 | the named slot becomes empty; everything else is unchanged |
| AuthContext.LoginStarted | src/context/AuthContext.tsx:35 | loading is set and the error cleared; user and flags are kept |
| AuthContext.LoginSettled | src/context/AuthContext.tsx:37-65 | Success with data: the user comes from the reply, logged in, checked in as `checkedIn \|\| false`, and the result is success. Envelope failure: the session is kept, the error is the message or `Invalid reservation code`, and the raw message is returned. Throw: the error and the returned message are the thrown message or `An error occurred during login` |
| AuthContext.FailedLoginKeepsSession | src/context/AuthContext.tsx:49-65 | a failed login leaves user, isLoggedIn and isCheckedIn as they were and reports no success |
| AuthContext.SuccessfulLoginForgetsPast | src/context/AuthContext.tsx:40-48 | a successful login reaches the same session from any prior session (so logout then login equals a fresh login) |
| AuthContext.AuthProvider.constructor | src/context/AuthContext.tsx:26-32 | no user, not logged in, not checked in, not loading, no error |
| AuthContext.AuthProvider.BeginLogin | src/context/AuthContext.tsx:35 | the first write of `login` |
| AuthContext.AuthProvider.FinishLogin | src/context/AuthContext.tsx:37-65 | the second write of `login` and its returned result |
| AuthContext.AuthProvider.Login | src/context/AuthContext.tsx:34-66 | both writes in order: the session and result are `AfterLogin` of the prior session |
| AuthContext.AuthProvider.CompleteCheckIn | src/context/AuthContext.tsx:68-70 | only isCheckedIn changes, to true (so it is idempotent) |
| AuthContext.AuthProvider.Logout | src/context/AuthContext.tsx:72-80 | the session is exactly the initial one (so it is idempotent); storage is not touched |
| CheckOut.LateCheckoutFee | src/pages/CheckOut.tsx:96-97 | 20 iff `1pm`, 40 iff `3pm`, 60 for any other option |
| CheckOut.WithLateCheckout | src/pages/CheckOut.tsx:99-120 | one item is appended with id = old length + 1, amount = fee and date = check-out date, and earlier items are kept. subtotal' = subtotal + fee, tax' = subtotal' * rate, total' = subtotal' + tax', balance' = total' - deposit. Guest, room, dates, rate and deposit are unchanged |
| CheckOut.MockIsConsistent | src/pages/CheckOut.tsx:37-57 | the mock bill's subtotal is the sum of its items, ids run 1..6, and tax, total and balance agree with rate and deposit |
| CheckOut.LateCheckoutKeepsConsistent | src/pages/CheckOut.tsx:99-120 | the recalculation preserves the bill-sum, id and totals invariants |
| CheckOut.FeesAccumulate | src/pages/CheckOut.tsx:88-122 | two late-checkout selections append two items and add both fees; no earlier line is removed |
| CheckOut.OnePmOnMockBill | src/pages/CheckOut.tsx:96-120 | `1pm` on the mock bill gives subtotal 879.50, tax 105.54, total 985.04, balance 785.04, and a seventh item `7` of 20 dated May 9, 2025 |
| CheckOut.CheckOutPage.constructor | src/pages/CheckOut.tsx:67-70 | starts with the mock bill, `standard`, card on file, new-card form hidden |
| CheckOut.CheckOutPage.HandleLateCheckoutChange | src/pages/CheckOut.tsx:88-123 | stores the option; `standard` leaves the bill, any other applies `WithLateCheckout` |
| CheckOut.CheckOutPage.HandlePaymentMethodChange | src/pages/CheckOut.tsx:125-128 | stores the method; the new-card form is shown iff it is `new-card` |
| RoomService.OrderTotal | src/pages/RoomService.tsx:51-54 | the loop's total is the sum of the prices |
| RoomService.RemoveById | src/pages/RoomService.tsx:64-66 | no item with the id remains; every other item remains, in order, as many times as it was in the order |
| RoomService.RemoveLowersTotal | src/pages/RoomService.tsx:51-66 | the old total is the new total plus the prices of the removed items |
| RoomService.OrderLines | src/pages/RoomService.tsx:77-82 | one line per item in order, with the item's id, name and price and quantity 1 |
| RoomService.PayloadTotalMatchesLines | src/pages/RoomService.tsx:76-85 | the payload total equals the sum of its lines' prices |
| RoomService.RemovingFromThreeItems | src/pages/RoomService.tsx:51-66 | three items total 35.75; removing `b` keeps `a` and `c`, which total 27.75 |
| RoomService.RoomServicePage.constructor | src/pages/RoomService.tsx:21-26 | loading, no error, empty menu and order, tab `breakfast`, total 0 |
| RoomService.RoomServicePage.FetchMenu | src/pages/RoomService.tsx:28-45 | A loaded menu is stored, and a non-empty one selects its first key as the tab. A failure sets the error to the thrown message or the generic text. Loading ends |
| RoomService.RoomServicePage.RecomputeTotal | src/pages/RoomService.tsx:51-54 | the total becomes the sum of the order's prices |
| RoomService.RoomServicePage.HandleAddItem | src/pages/RoomService.tsx:56-62 | one copy with id `<id>-<now>` is appended; earlier items and the total invariant are kept |
| RoomService.RoomServicePage.HandleRemoveItem | src/pages/RoomService.tsx:64-66 | the order becomes `RemoveById`, with the total invariant kept |
| RoomService.RoomServicePage.HandlePlaceOrder | src/pages/RoomService.tsx:68-101 | An empty order sends nothing and changes nothing. Otherwise the payload is sent and loading ends. It is placed iff the reply resolved with success; else the error is the message or the generic text |
| Feedback.IndexOf | src/pages/Feedback.tsx:89 | -1 iff the tag is absent, else its first position |
| Feedback.RemoveFirstOccurrence | src/pages/Feedback.tsx:97-99 | splicing out the first occurrence in a list without duplicates removes that tag, keeps every other, and creates no duplicate |
| Feedback.ToggledMembership | src/pages/Feedback.tsx:86-106 | after a toggle the tag is present iff it was absent, every other tag keeps its membership, and no duplicate appears |
| Feedback.ToggleTwiceAbsent | src/pages/Feedback.tsx:86-106 | toggling an absent tag twice restores the list |
| Feedback.ToggleTwicePresent | src/pages/Feedback.tsx:86-106 | toggling a present tag twice keeps the same multiset but moves the tag to the end; the list is restored iff the tag was last |
| Feedback.ActiveStarCount | src/pages/Feedback.tsx:162-166 | a rating of 0 to 5 lights exactly that many of the five stars (`rating >= star`) |
| Feedback.FeedbackPage.constructor | src/pages/Feedback.tsx:33-50 | all six ratings 0, empty texts and tag lists, not anonymous, quick box closed |
| Feedback.FeedbackPage.HandleRatingClick | src/pages/Feedback.tsx:79-84 | only the named rating changes |
| Feedback.FeedbackPage.HandleTagClick | src/pages/Feedback.tsx:86-106 | the named list is toggled, the other is unchanged, and both stay duplicate-free |
| Feedback.FeedbackPage.HandleQuickFeedbackClick | src/pages/Feedback.tsx:127-130 | the kind is stored and the box opens |
| Feedback.FeedbackPage.HandleQuickFeedbackSubmit | src/pages/Feedback.tsx:132-142 | blank text is refused and the box stays as it is; otherwise it closes and the text is cleared |
| LocalAttractions.DistanceFilters | src/pages/LocalAttractions.tsx:133-139 | `nearby` iff distance <= 1; `5-10 km` iff 5 <= d <= 10; `10+ km` iff d >= 10 (10 passes both); any other text keeps all |
| LocalAttractions.FilteredIsOrderedSelection | src/pages/LocalAttractions.tsx:129-146 | the result is an ordered subsequence holding exactly the attractions that pass both the distance and the category test, each as many times as the list holds it |
| LocalAttractions.AllFiltersKeepEverything | src/pages/LocalAttractions.tsx:129-146 | with both filters `all` the list is unchanged |
| LocalAttractions.FiltersOnThePageList | src/pages/LocalAttractions.tsx:37-146 | on the page's three attractions, nearby parks give Central Park alone and `5-10 km` gives none |
| LocalAttractions.AttractionFilters.constructor | src/pages/LocalAttractions.tsx:34-35 | both filters start at `all` |
| LocalAttractions.AttractionFilters.HandleFilterChange | src/pages/LocalAttractions.tsx:120-126 | only the named filter takes the value |
| Maintenance.TruncateIssueShape | src/pages/Maintenance.tsx:74 | The issue is at most 33 characters. A description of up to 30 is kept whole; a longer one keeps its first 30 plus `...` |
| Maintenance.TruncateIssueIdempotent | src/pages/Maintenance.tsx:74 | truncating an issue line again changes nothing |
| Maintenance.InitialForm | src/pages/Maintenance.tsx:29-35 | priority medium, contact method `app`, not-present false, empty texts |
| Maintenance.MaintenancePage.constructor | src/pages/Maintenance.tsx:26-35 | the initial form, not loading, no error |
| Maintenance.MaintenancePage.HandlePriorityChange | src/pages/Maintenance.tsx:45-50 | only the priority changes |
| Maintenance.MaintenancePage.HandleSubmit | src/pages/Maintenance.tsx:60-90 | The form is posted to `/room/maintenance`. Only success with data writes the maintenance slot: id, status and eta from the reply, issue and priority from the form. Otherwise the store is untouched and the error is the message or the generic text. Loading ends on every path |
| Chatbot.InitialLog | src/pages/Chatbot.tsx:32-39 | the log starts with exactly one bot greeting, with an empty input, not loading |
| Chatbot.SendLaws | src/pages/Chatbot.tsx:53-67 | Whitespace-only text changes nothing. Other text appends one user message with exactly that text, clears the input and sets loading. The earlier log is kept |
| Chatbot.ReplyLaws | src/pages/Chatbot.tsx:72-82 | the reply is appended, quotes the sent text, and clears loading; the earlier log is kept |
| Chatbot.Exchange | src/pages/Chatbot.tsx:53-83 | a send and its reply add exactly the user message and the quoting bot message, and loading ends |
| Chatbot.QuickQuestionIsLost | src/pages/Chatbot.tsx:92-99 | with an empty input, a quick question as written sends nothing and stays in the input; as intended it is sent |
| Chatbot.WifiQuestionOnFreshPage | src/pages/Chatbot.tsx:92-99 | on a fresh page the `wifi` question is lost as written and sent as intended |
| Chatbot.ChatbotPage.constructor | src/pages/Chatbot.tsx:32-39 | the initial chat state |
| Chatbot.ChatbotPage.SetCurrentMessage | src/pages/Chatbot.tsx:131 | the input takes the typed text |
| Chatbot.ChatbotPage.Send | src/pages/Chatbot.tsx:56-67 | the state becomes `AfterSend` of the text; the reply will quote exactly the text sent; the log only grows |
| Chatbot.ChatbotPage.HandleSendMessage | src/pages/Chatbot.tsx:53-67 | sends the current input; the log only grows |
| Chatbot.ChatbotPage.DeliverReply | src/pages/Chatbot.tsx:72-82 | the state becomes `AfterReply`; the log only grows |
| Chatbot.ChatbotPage.HandleKeyPress | src/pages/Chatbot.tsx:85-90 | Enter without Shift sends; any other key, Shift+Enter included, changes nothing |
| Chatbot.ChatbotPage.HandleQuickQuestionAsWritten | src/pages/Chatbot.tsx:92-99 | the question goes into the input, but the render's old input is what is sent |
| Chatbot.ChatbotPage.HandleQuickQuestion | src/pages/Chatbot.tsx:92-99 | the question itself is sent |
| Home.HandleDndToggle | src/pages/Home.tsx:18-28 | The negated flag is posted to `/room/dnd`. The local flag flips iff the call returned, so afterwards it equals the value sent iff the call returned. A throw leaves it and raises the alert |
| Home.OptionAction | src/pages/Home.tsx:35-41 | `dnd-toggle` toggles; any other option navigates to `/` + option |
| Home.CardRouting | src/pages/Home.tsx:82-168 | exactly one card toggles do-not-disturb, and the others go to pairwise different routes |
| Home.NotificationVisibility | src/pages/Home.tsx:51-77 | the cleaning, maintenance and dnd notifications show iff the cleaning slot, the maintenance slot and the flag are set, at most one of each |
| Home.ToggleFlipsDndNotification | src/pages/Home.tsx:18-28 | a successful toggle shows or hides the dnd notification and leaves the others |
| Home.DndIconFollowsFlag | src/pages/Home.tsx:131-137 | the do-not-disturb card shows the ringing bell exactly while the dnd notification is shown, and a successful toggle swaps the card's icon |
| StatusNotification.IconsTellTypesApart | src/components/home/StatusNotification.tsx:19-27 | the four known types have four different icons, none of them the fallback pin |
| StatusNotification.TimeLabelLaws | src/components/home/StatusNotification.tsx:37 | a time containing `Requested` is kept, any other gets `Requested at `; every label contains `Requested`, so labelling is idempotent |
| StatusNotification.DndTimeLabel | src/components/home/StatusNotification.tsx:37 | the dnd notification's `Active` is shown as `Requested at Active` |
| StatusNotification.ActionText | src/components/home/StatusNotification.tsx:16 | `View` is used iff the prop is absent; a given text, even empty, is kept |
| FloatingLanguageSelector.Find | src/components/common/FloatingLanguageSelector.tsx:29 | `find` returns the first entry with the code, or nothing iff no entry has it |
| FloatingLanguageSelector.LookupLaws | src/components/common/FloatingLanguageSelector.tsx:14-29 | the shown entry is always in the list; a listed code shows an entry with that code, an unlisted one shows English |
| FloatingLanguageSelector.LookupListed | src/components/common/FloatingLanguageSelector.tsx:14-29 | each listed code shows exactly its own entry |
| FloatingLanguageSelector.CurrentLangCode | src/i18n/index.ts:64-66 | a non-empty i18n language is used; otherwise a non-empty stored code, otherwise `en`; the code is never empty |
| FloatingLanguageSelector.Selector.constructor | src/components/common/FloatingLanguageSelector.tsx:26 | the dropdown starts closed |
| FloatingLanguageSelector.Selector.ToggleOpen | src/components/common/FloatingLanguageSelector.tsx:46 | the flag button flips the dropdown |
| FloatingLanguageSelector.Selector.Close | src/components/common/FloatingLanguageSelector.tsx:58 | the close button closes it |
| FloatingLanguageSelector.Selector.HandleLanguageChange | src/components/common/FloatingLanguageSelector.tsx:31-40 | the same code goes to the i18n layer, its storage entry and the preference store (nothing else there changes), and the dropdown closes |
| FloatingLanguageSelector.ChosenLanguageIsShown | src/components/common/FloatingLanguageSelector.tsx:28-40 | after choosing a listed language, the selector shows that language |

## Left out

- Network I/O: `fetch`, `response.json()` and JSON serialization are not performed. A reply is a settled input, and a body is either a parsed envelope or unparsable.
- Browser storage is a map; persistence across reloads is not modelled.
- Console logging, `alert`, and navigation are not performed. Alerts and routes are returned as values where a caller observes them (Home).
- Timers: only the chatbot reply is a separate step (`Chatbot.ChatbotPage.DeliverReply`). The quick question's delayed send is folded into one method that reads the input as the clicking render saw it before setting it, so the zero-delay timer tick between the set and the send is not modelled. The feedback submission's timer is not modelled (see the submit handlers below).
- Clock readings: `Date.now()` and `toLocaleTimeString` are parameters. Message timestamps are left out.
- Translated texts are not modelled. The `t(...)` key stands for its text (`common.error`, `chatbot.greeting`).
- Floating point is left out: `toFixed`, IEEE rounding and `parseFloat` of a distance. Distances and money are exact reals, and a NaN distance is not modelled.
- Header names are compared case-sensitively, as the object spread in the source does. `fetch`'s case-insensitive `Headers` is not modelled.
- String lengths are counted in code points, not UTF-16 units. This matters only for the 30-character issue cut of text outside the Basic Multilingual Plane.
- `Object.keys` ordering of integer-like menu keys: a menu is a sequence of sections in key order.
- The RoomService total is recomputed right after each order change. The `useEffect` that does this in the source runs one render later; intermediate renders are not modelled.
- The generic form setters (`handleInputChange`, `handleCheckboxChange`) in Feedback and Maintenance store a value under a field name. They are not modelled. The two submit handlers are not modelled either. CheckOut's `handleCompleteCheckout` (src/pages/CheckOut.tsx:146-178) sets `loading` and clears `error`, then starts a 1500 ms timer that alerts, calls `logout()` (the operation `AuthContext.AuthProvider.Logout` models) and navigates to `/login`; its `finally` clears `loading`. Feedback's `handleSubmit` (src/pages/Feedback.tsx:108-124) sets `loading` and clears `error`, then starts a 1000 ms timer that alerts and navigates to `/home`; on that path `loading` is never cleared. Both only simulate a backend call, and their effects are timers, alerts, navigation and the loading flag.
- CheckOut: `feedbackRating`, `loading` and `error` are never set by the modelled handlers and are not modelled.
- src/api/authApi.ts, which `AuthContext` imports, is not part of this model. Its reply has the same shape as `loginUser`'s and is an input.
- src/api/cleanMaintenanceServiceApi.ts is a set of one-line `post`/`get` pass-throughs. Only the two calls the core pages make (`/room/maintenance`, `/room/dnd`) appear, inside the page handlers.
- The i18next instance and its language detector are not modelled. Only the current language and the `hotelAppLanguage` storage entry that the selector writes are.
- Races between concurrent requests and updates after a page unmounts are a concurrency concern and are not modelled.
- Home.HandleDndToggle: a backend reply with `success: false` still flips the flag, exactly as the source does; only a throw prevents the flip.

## Findings

| source | as written | input that shows it | evidently intended | confidence | as-written member | corrected member |
|---|---|---|---|---|---|---|
| src/pages/Chatbot.tsx:92-99 | `handleQuickQuestion` sets the input to the question, then schedules `handleSendMessage` of the same render. That send reads the input as it was before the click | a fresh page (empty input) and a click on the `wifi` question: nothing is sent, and the question stays in the input box | the question is sent as the user's message | not executed; follows from a render's closures seeing that render's state | Chatbot.QuickQuestionIsLost | Chatbot.ChatbotPage.HandleQuickQuestion |
