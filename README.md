# HomePro Connect client logic in Dafny

HomePro Connect is a home-services marketplace. Its browser client lets
customers look through a catalog of providers, book and reschedule
appointments, and get e-mail reminders. Providers manage their bookings and
their weekly availability, users keep a prepaid wallet, and everyone can chat.

This project models the deterministic logic of that client and proves what it
promises. The DOM, the network, the clock and the browser's dialogs become
inputs.

- **What the server says back** is a parameter of the Dafny method: a reply datatype, or `None` for a call that threw.
- **What the user answers** to a `confirm` or `prompt`, or types in a box, is a parameter too.
- **Requests a page sends** are appended to its `outbox` field, in order.
- **What the chat client emits** on its socket goes to the `emitted` field.

| module | file | source it models |
|---|---|---|
| `Js`, `Text`, `Json`, `Seqs`, `Wrappers` | `js.dfy`, `text.dfy`, `json.dfy`, `seqs.dfy`, `wrappers.dfy` | JavaScript values, truthiness, `\|\|` and `String()`; ASCII `toLowerCase`, `trim` and `includes`; `JSON.parse`/`JSON.stringify` for scalars, objects and arrays checked against the grammar; order-preserving filters; Option/Result |
| `Storage` | `storage.dfy` | utils.js `storage` and `jwt` over `localStorage` |
| `Http` | `http.dfy` | the two `apiFetch` wrappers (utils.js, provider-dashboard.js) |
| `Escape` | `escape.dfy` | the three copies of `escapeHtml` |
| `Catalog` | `catalog.dfy` | the provider catalog of auth.js and the name search of dashboard.js |
| `Booking` | `booking.dfy` | booking records, status rules, search, status query, reminder window |
| `HomePage` | `home_page.dfy` | auth.js: login storage, booking modal, booking list and reminders |
| `ProviderDashboard` | `provider_dashboard.dfy` | provider-dashboard.js: access guard, booking list and actions, availability |
| `CustomerDashboard` | `customer_dashboard.dfy` | dashboard.js: book / edit modal, delete, status toggle, reminder |
| `BookingActions` | `booking_actions.dfy` | bookingAction.js: modal, loader, reload after every write, dashboard form |
| `Wallet` | `wallet.dfy` | wallet.js: user table, ledger, history, CSV, service counts |
| `Chat` | `chat.dfy` | chat.js: sign-in, socket handlers, message list, sending with uploads |
| `Theme` | `theme.dfy` | the light/dark switch of dashboard.js and settings.js |
| `Settings` | `settings.dfy` | settings.js: profile and password forms, confirmed logout |

Each page whose script keeps state is a class. Its fields are the
module-level variables the script reassigns (`selectedProvider`,
`allBookings`, `bookingsCache`, `users`, `currentUser`, …) and the
`localStorage` map. Its handlers are methods that say, in `ensures`, the whole
new state, usually as a pure function of the old state and the replies. The
properties are proved as lemmas about those functions.

Loops in the source stay loops, each in a method proved equal to its
specification function:
- the reminder `forEach`;
- the availability gathering;
- the CSV `+=` loop;
- the upload loop;
- the dashboard's provider options.

Money is integer cents and dates are integer milliseconds.

## Model

| member | source | states |
|---|---|---|
| Escape.EscapeHtml | utils.js:45-49 | a missing input gives ""; text is escaped character by character |
| Escape.EntityOf | utils.js:46-48 | each of the five special characters becomes an entity `&…;`, every other character stays itself |
| Escape.EscapeHasNoMarkup | utils.js:46-48 | the escaped text never contains `<`, `>`, `"` or `'` |
| Escape.EscapeAppend | utils.js:46-48 | escaping distributes over concatenation: escape(a+b) = escape(a)+escape(b) |
| Escape.EscapePlain | utils.js:46-48 | a text without any of the five special characters comes back unchanged |
| Escape.UnescapeEscape | auth.js:68-72 | escaping loses nothing: reading the entities back yields the original text |
| Escape.EscapeValue | provider-dashboard.js:201-204 | a falsy input gives ""; anything else is converted to a string and escaped |
| Escape.EscapeVersionsAgree | provider-dashboard.js:201-204 | on text, the provider dashboard's escaper agrees with the utils.js one |
| Storage.GetItem | utils.js:12 | `getItem` yields the stored text exactly when the key is present |
| Storage.SetItemSpec | utils.js:9 | `setItem` stores the text at the key and leaves every other key as it was |
| Storage.RemoveItem | utils.js:18 | `removeItem` drops exactly that key |
| Storage.Set | utils.js:8-10 | `storage.set` writes only its own key |
| Storage.Get | utils.js:11-16 | the default for a missing key, an empty text or a text that does not parse; the parsed value otherwise |
| Storage.Remove | utils.js:17-19 | `storage.remove` drops exactly that key |
| Storage.ClearAll | utils.js:20-22 | `clearAll` leaves nothing stored |
| Storage.Logout | utils.js:35-39 | `jwt.logout` removes exactly `token`, `user` and `googleTokens`; other keys keep their values |
| Storage.SetGet | utils.js:8-16 | what `storage.set` wrote, `storage.get` reads back (an undefined value reads back as the default) |
| Storage.SetGetOther | utils.js:8-16 | setting one key does not change what another key reads |
| Storage.GetToken | utils.js:29-31 | as written: `null` when no non-empty token is stored, the token is not JSON or it is JSON `null`; the parsed token otherwise |
| Storage.IsLoggedIn | utils.js:32-34 | as written: logged in exactly when a non-empty token is stored that parses as JSON to a truthy value |
| Storage.ParseItem | dashboard.js:30 | `JSON.parse(getItem(key))`: `null` for a missing key, a syntax error for the empty text, the parse of the stored text otherwise |
| Storage.ParseItemSpec | dashboard.js:30 | `JSON.parse(getItem(key))` is the parse of the stored text, or of the text "null" when the key is missing |
| Storage.RawZeroTokenNotLoggedIn | utils.js:29-34 | as written: a raw token "0" parses to the falsy 0, so `isLoggedIn` is false |
| Storage.LoggedInAfterSet | utils.js:29-34 | after `storage.set('token', v)`, `isLoggedIn` is the truthiness of v |
| Storage.LogoutEndsSession | utils.js:35-39 | after `logout` nobody is logged in, and no other key changed |
| Storage.RawTokenNotLoggedIn | utils.js:29-34 | as written: with a JWT stored raw, `isLoggedIn` is false |
| Storage.SessionToken | utils.js:29-31 | corrected `getToken`: the raw stored token, `null` without one |
| Storage.LoggedInIff | utils.js:32-34 | corrected `isLoggedIn` holds exactly when a non-empty token is stored |
| Storage.LoggedInAfterStore | utils.js:32-34 | storing a token raw logs in exactly when the token is non-empty |
| Storage.LogoutEndsCorrectedSession | utils.js:35-39 | `logout` ends the corrected session too |
| Storage.LoggedInAgreesOnJsonTokens | utils.js:29-34 | a token written through `storage.set` logs in as written exactly when the same token stored raw logs in under the corrected check |
| Storage.LocalStorage.constructor | utils.js:7-23 | the shared store starts with the given items |
| Storage.LocalStorage.SetValue | utils.js:8-10 | the items become `Set` of the old items |
| Storage.LocalStorage.GetValue | utils.js:11-16 | returns `Get` of the items, changing nothing |
| Storage.LocalStorage.RemoveValue | utils.js:17-19 | the items become `Remove` of the old items |
| Storage.LocalStorage.Clear | utils.js:20-22 | the items become empty |
| Storage.LocalStorage.EndSession | utils.js:35-39 | the items become `Logout` of the old items |
| Json.ParseEmptyObject | provider-dashboard.js:6 | the fallback "{}" parses as an object, and it has no member of any name |
| Json.ParseRejectsBadObject | utils.js:14 | a `{` followed by anything but white space, a member name or `}` is a syntax error, as "{abc" is |
| Json.OneMemberRecord | auth.js:79 | the record `JSON.stringify` writes for one string member parses as an object whose member reads back as that string |
| Json.StringifyParse | utils.js:9-14 | `JSON.parse(JSON.stringify(v)) == v` for every scalar other than `undefined` |
| Http.SessionHeaders | utils.js:70-74 | `Authorization: Bearer <token>` only for a truthy token; a truthy caller `Content-Type` kept, else JSON; all other headers unchanged |
| Http.RequestInit.constructor | utils.js:69-71 | the options object holds the caller's headers, body and form-data flag |
| Http.RequestInit.AttachSession | utils.js:71-74 | the headers object is rewritten in place to the session headers; body untouched |
| Http.UtilsOutcome | utils.js:76-84 | data only for an ok reply with a JSON body; a reply that is not ok throws `data.error`, or "API request failed" |
| Http.ProviderHeaders | provider-dashboard.js:125-127 | `Content-Type` is JSON, or undefined for form data; `Authorization` is always `Bearer ` plus the raw token |
| Http.ProviderBody | provider-dashboard.js:128 | a truthy body that is not form data is sent as JSON text; otherwise the body is left alone |
| Http.RequestInit.PrepareForProvider | provider-dashboard.js:124-128 | the options' headers and body are rewritten in place |
| Http.ProviderOutcome | provider-dashboard.js:129-134 | a reply that is not ok throws `error`, then `message`, then the status text for a non-JSON body, then "API error" |
| Catalog.Loaded | auth.js:181-196 | the backend's list when it answered; otherwise the six fallback providers, ids 101-106 |
| Catalog.FilterProviders | auth.js:219-230 | an order-preserving subsequence of exactly the providers matching the query (name or description), the category and the price |
| Catalog.FilterShowsAll | auth.js:220-229 | an empty query with both selectors on "all" shows every provider |
| Catalog.FilterIgnoresCase | auth.js:220 | the query is compared lower-cased, so its case does not matter |
| Catalog.CategoryNarrows | auth.js:227 | a category choice only removes providers from the "all" result |
| Catalog.CategoryOptions | auth.js:206 | the first option is "All Categories" |
| Catalog.CategoryOptionsSpec | auth.js:204-214 | after it, each provider's category exactly once, with its first letter upper-cased |
| Catalog.CategoryOptionsOrder | auth.js:207 | the options follow the order in which categories first appear |
| Catalog.OptionsForDistinct | auth.js:207-211 | options built from distinct categories are labelled, cover all and repeat none |
| Catalog.NameSearch | dashboard.js:66-71 | an order-preserving subsequence of exactly the providers whose lower-cased name contains the lower-cased input |
| Catalog.NameSearchEmpty | dashboard.js:66-71 | an empty input keeps the whole list |
| Booking.OfferedActions | provider-dashboard.js:249-251 | pending offers accept and decline, scheduled offers mark-complete, any other status offers nothing |
| Booking.ActionPathInjective | provider-dashboard.js:283-303 | different actions call different endpoints |
| Booking.StatusClass | provider-dashboard.js:271-274 | "" exactly for an empty status, otherwise `status-` followed by the status |
| Booking.StatusClassInjective | provider-dashboard.js:271-274 | different statuses get different classes |
| Booking.SearchBookings | provider-dashboard.js:227-233 | all bookings for an empty term; otherwise, in order, those whose lower-cased text contains the lower-cased term |
| Booking.SearchEmptyKeepsAll | provider-dashboard.js:230 | an empty term keeps the list exactly |
| Booking.SearchFindsUndefinedService | provider-dashboard.js:231 | a booking without a service is found by searching "undefined" |
| Booking.StatusQuery | provider-dashboard.js:209-210 | the status parameter is set exactly when the filter is non-empty and not "all" |
| Booking.QueryString | provider-dashboard.js:208-211 | the query string is empty exactly when no status parameter is set, and otherwise is `status=` followed by the filter |
| Booking.DisplayStatus | dashboard.js:187 | a booking without a status shows as "scheduled" |
| Booking.ToggleTarget | dashboard.js:227-229 | the toggle sends "scheduled" exactly for a completed booking, "completed" otherwise |
| Booking.ToggleText | dashboard.js:198-200 | the button reads "Undo" exactly for a completed booking |
| Booking.ToggleTwice | dashboard.js:227-229 | two toggles bring a completed or scheduled booking back |
| Booking.ToggleMissingStatus | dashboard.js:187 | a booking without a status is offered "Mark Completed" |
| Booking.ToggleTextMatchesTarget | dashboard.js:198-200 | "Undo" is shown exactly when a click sends "scheduled" |
| Booking.EditDate | dashboard.js:216 | the edit form shows at most the first 16 characters of the date, a prefix of it |
| Booking.ReminderTargetsSpec | auth.js:305-308 | in list order, exactly the bookings with 0 < when − now ≤ 24 h |
| Booking.ReminderTargetsAppend | auth.js:305-308 | the reminders of two lists in a row are those of each list |
| Booking.ReminderBounds | auth.js:306-307 | a booking exactly 24 h away qualifies; one starting now or later than 24 h does not |
| HomePage.PayloadFor | auth.js:267-274 | the service falls back to the name, the duration to 60; notes are trimmed |
| HomePage.CheckSubmit | auth.js:262-265 | rejections in order: no provider, then no date, then no token; otherwise the token and payload |
| HomePage.SubmittedPayloadWellFormed | auth.js:262-274 | a sent payload has a date, a positive duration and a non-empty token |
| HomePage.RemindAllSpec | auth.js:305-308 | one reminder request per listed booking, in order |
| HomePage.LoadRequests | auth.js:297-301 | nothing without a token; otherwise the list request comes first |
| HomePage.EmailReadableIff | auth.js:320 | the reminders can read the e-mail exactly when `JSON.parse(getItem('user') \|\| '{}')` yields a value other than `null` |
| HomePage.BareNameUnreadable | auth.js:320 | after chat.js stores the bare user name, the record cannot be read, so no reminder goes out |
| HomePage.AuthWithoutUserUnreadable | auth.js:79 | a login reply without a user stores "undefined" or "null", neither of which can be read |
| HomePage.LoadRequestsListed | auth.js:297-320 | a listed reply adds exactly the reminders for the bookings due soon, or none when the user record cannot be read |
| HomePage.RemindersExact | auth.js:305-308 | with a readable user record, every reminder is for a listed booking due within 24 h, and each such booking gets one |
| HomePage.LoadSendsReminders | auth.js:297-320 | a logged-in load sends the list request and then those reminders, so every load sends them again; with an unreadable user record the first reminder throws and none goes out |
| HomePage.NoLoadWithoutToken | auth.js:298-299 | without a stored token nothing is requested |
| HomePage.FailureReason | auth.js:290 | the server's error, or "Unknown error" |
| HomePage.Submit | auth.js:261-292 | nothing is sent exactly when a check fails |
| HomePage.SubmitRejected | auth.js:262-265 | a failed check shows its message and changes nothing |
| HomePage.SubmitAccepted | auth.js:276-291 | the booking request goes first; only `success` resets the modal and reloads, otherwise the form stays |
| HomePage.AuthStore | auth.js:78-80 | the token (or ""), the user as JSON and truthy Google tokens are written; nothing else changes |
| HomePage.AuthLogsIn | auth.js:77-80 | after the login writes, the page is logged in exactly when the server sent a truthy token |
| HomePage.ReminderRequests | auth.js:305-320 | the `forEach` loop sends exactly `RemindAll(ReminderTargets(list, now))` with a readable user record; otherwise it stops at the first booking due, having sent nothing |
| HomePage.Page.constructor | auth.js:60-63 | no providers, no selection, no bookings, empty modal |
| HomePage.Page.LoadProviders | auth.js:181-196 | the catalog becomes `Loaded(reply)` |
| HomePage.Page.OpenBookingModal | auth.js:252-257 | the provider becomes the selection |
| HomePage.Page.LoadBookings | auth.js:297-320 | the outbox grows by `LoadRequests`, and `allBookings` is the listed bookings or unchanged |
| HomePage.LoadStep | auth.js:297-320 | the handler's branches compute exactly `LoadRequests` and `BookingsAfterLoad`: the list is kept, and its reminders are sent when the user record can be read |
| HomePage.Page.SubmitBooking | auth.js:261-292 | alert, modal, outbox and bookings are those of `Submit` |
| HomePage.Page.SendBooking | auth.js:276-291 | the booking request goes out; a network error, a refusal and a success each show their alert, and only a success clears the modal and reloads |
| HomePage.Page.ConfirmAndReload | auth.js:285-289 | the modal is cleared and the bookings reload |
| HomePage.Page.HandleAuthResponse | auth.js:77-89 | the store becomes `AuthStore`; with the `userName` element on the page, a reply without a user throws at `data.user.name` and nothing reloads; otherwise the bookings reload |
| ProviderDashboard.Allowed | provider-dashboard.js:9 | admitted exactly with a non-empty token and a parsed record whose `role` member is "provider" |
| ProviderDashboard.NoRecordNoAccess | provider-dashboard.js:6-9 | a missing or empty user record reads as "{}", and then nobody is admitted; nor with a `null` record |
| ProviderDashboard.RoleRecordAllowed | provider-dashboard.js:5-12 | a record holding one `role` member is admitted, with a non-empty token, exactly when that role is "provider" |
| ProviderDashboard.BareNameHalts | provider-dashboard.js:6 | the bare user name chat.js stores is not JSON, so the script stops at the parse |
| ProviderDashboard.Pairs | provider-dashboard.js:430-432 | the i-th from input is paired with the i-th to input |
| ProviderDashboard.SlotsOf | provider-dashboard.js:430-433 | a day fails exactly when a from input has no to input at its position |
| ProviderDashboard.KeptIsFilter | provider-dashboard.js:433 | the saved slots are the filled pairs, in input order |
| ProviderDashboard.SlotsOfSpec | provider-dashboard.js:430-434 | every saved slot is filled, every filled pair is saved, input order is kept |
| ProviderDashboard.GatherPrefixFails | provider-dashboard.js:424-442 | a day that fails makes the whole save fail |
| ProviderDashboard.GatherStep | provider-dashboard.js:427-436 | one more day adds `payload[day] = slots` |
| ProviderDashboard.GatherDefined | provider-dashboard.js:427-436 | complete inputs always gather |
| ProviderDashboard.GatherDays | provider-dashboard.js:427-436 | the payload's keys are exactly the containers' days |
| ProviderDashboard.GatherValues | provider-dashboard.js:427-436 | with one container per day, each entry holds that container's slots |
| ProviderDashboard.GatherSpec | provider-dashboard.js:426-436 | one entry per day, holding exactly its filled slots in order |
| ProviderDashboard.GatherAvailability | provider-dashboard.js:426-436 | the nested loops compute exactly `Gather(grid)` |
| ProviderDashboard.Startup | provider-dashboard.js:5-12 | only a stored, non-empty record can halt the script; a page that neither halts nor redirects has a non-empty token |
| ProviderDashboard.StartupSpec | provider-dashboard.js:5-12 | halted exactly when `getItem("user") \|\| "{}"` is not JSON; otherwise redirected exactly when the parsed record is not `Allowed` with the stored token |
| ProviderDashboard.Page.constructor | provider-dashboard.js:5-12 | the page keeps the start's outcome, with an empty cache, filter, search and outbox |
| ProviderDashboard.Open | provider-dashboard.js:5-12 | loading the page leaves a new page whose halted and redirected flags are `Startup` of the store, with nothing cached or sent |
| ProviderDashboard.Page.SetSearch | provider-dashboard.js:276 | the cached list is filtered again, with no request |
| ProviderDashboard.Page.LoadBookings | provider-dashboard.js:206-218 | sends the status query; the cache becomes `bookings \|\| []` on success and is kept on failure |
| ProviderDashboard.Page.SetFilter | provider-dashboard.js:277 | a new status selection reloads with its query |
| ProviderDashboard.Page.HandleAction | provider-dashboard.js:280-309 | nothing without confirmation; the action request, then on success an alert and a reload whose failure keeps the cache, on failure its message |
| ProviderDashboard.Page.SaveAvailabilityClicked | provider-dashboard.js:423-443 | a failed gathering sends nothing; otherwise the gathered payload is sent and the alert follows the reply |
| CustomerDashboard.FromProvider | dashboard.js:95-101 | a card's provider keeps its id, name and service |
| CustomerDashboard.FromBooking | dashboard.js:208-219 | an edited booking's provider is rebuilt from the booking |
| CustomerDashboard.ConfirmRequest | dashboard.js:114-143 | a PUT to the edited booking's id, otherwise a POST, with the same body |
| CustomerDashboard.Confirm | dashboard.js:111-154 | an empty date is refused before any request; with no provider nothing is sent |
| CustomerDashboard.ConfirmSendsOne | dashboard.js:125-143 | with date and provider exactly one write goes first: PUT when editing, POST otherwise |
| CustomerDashboard.ConfirmReloadsOnSuccess | dashboard.js:144-153 | the modal closes and the list reloads exactly for an accepted JSON reply |
| CustomerDashboard.ReminderEmail | dashboard.js:284 | `user.email` throws exactly for a `null` record; otherwise it is the record's `email` member, `undefined` when it has none |
| CustomerDashboard.ReminderEmailOfRecord | dashboard.js:30 | with no record stored the parse gives `null` and no e-mail can be read; a record "{}" gives an `undefined` e-mail |
| CustomerDashboard.UnreadableRecordHalts | dashboard.js:30 | the bare name chat.js stores and the "undefined" of a login without a user are not JSON, so the script stops |
| CustomerDashboard.Startup | dashboard.js:30-36 | halted exactly when the stored record is not JSON; redirected exactly without a session otherwise; the e-mail is `ReminderEmail` of the parsed record, and none only for a missing record |
| CustomerDashboard.Page.constructor | dashboard.js:30-36 | halted exactly when the stored record is not JSON; otherwise redirected exactly without a session; the e-mail is `ReminderEmail` of the parsed record; no selection, no edit id |
| CustomerDashboard.Page.OpenFromCard | dashboard.js:95-101 | the edit id is reset to none and the date and notes cleared |
| CustomerDashboard.Page.OpenEdit | dashboard.js:208-219 | the modal is filled from the booking and remembers its id (cards are never rendered with the repository's api.js, so this handler cannot be reached as it stands) |
| CustomerDashboard.Page.ConfirmBooking | dashboard.js:111-154 | alert, outbox and modal follow `Confirm` |
| CustomerDashboard.Page.Delete | dashboard.js:241-254 | nothing without confirmation; any reply reloads; a failed request alerts (cards are never rendered with the repository's api.js, so this handler cannot be reached as it stands) |
| CustomerDashboard.Page.UpdateStatus | dashboard.js:259-273 | the PATCH is sent; any reply reloads (cards are never rendered with the repository's api.js, so this handler cannot be reached as it stands) |
| CustomerDashboard.Page.ToggleStatus | dashboard.js:227-229 | sends "scheduled" exactly for a completed booking (cards are never rendered with the repository's api.js, so this handler cannot be reached as it stands) |
| CustomerDashboard.Page.SendReminder | dashboard.js:278-298 | nothing when `user.email` throws (a missing or `null` record); otherwise the reminder with the record's `email` member, `undefined` included, and the alert follows the reply (cards are never rendered with the repository's api.js, so this handler cannot be reached as it stands) |
| BookingActions.ModalCheck | bookingAction.js:65-66 | no provider is refused before the date is checked; either refusal stops the handler |
| BookingActions.ModalPayload | bookingAction.js:68-76 | the service falls back to the name, the duration to 60; calendarSync holds exactly when Google tokens are stored |
| BookingActions.LoadRequests | bookingAction.js:105-114 | exactly one list request when `jwt.isLoggedIn()` holds (the token read back as JSON), none otherwise |
| BookingActions.BookingsAfterLoad | bookingAction.js:105-122 | `bookings \|\| []` from a good reply when `jwt.isLoggedIn()` holds; otherwise unchanged |
| BookingActions.NoLoadWithoutLogin | bookingAction.js:106-111 | without a token nothing is requested and the list stays |
| BookingActions.CorrectedLoadRequests | bookingAction.js:105-114 | corrected: one list request exactly when a non-empty token is stored |
| BookingActions.RawJwtNeverLoads | bookingAction.js:106 | as written: with the server's JWT stored raw, nothing is requested and the list stays, though the corrected load requests it |
| BookingActions.RawZeroTokenNeverLoads | bookingAction.js:106 | as written: a raw token "0" reads back as the falsy number 0, so nothing is requested |
| BookingActions.JsonTokenLoads | bookingAction.js:106 | for a token written through `storage.set`, the page and the corrected load agree |
| BookingActions.Submit | bookingAction.js:64-91 | nothing is sent exactly when a guard fails |
| BookingActions.SubmitRejected | bookingAction.js:65-66 | a failed guard shows its alert and changes nothing |
| BookingActions.SubmitAccepted | bookingAction.js:78-90 | an accepted post confirms, resets and reloads, and on the home page without a session the reload's `ReferenceError` is alerted after the confirmation; a failed post reports why and keeps the modal |
| BookingActions.ReloadAlert | bookingAction.js:106-110 | a second alert follows exactly on the home page when the reload sends nothing, and it reports "upcomingBookings is not defined" |
| BookingActions.HomeBookingAlertsTwice | bookingAction.js:84-89 | with the server's JWT stored raw, an accepted home-page booking is confirmed and then reported as an error, with only the post sent |
| BookingActions.WriteRequests | bookingAction.js:208-235 | each write is sent first |
| BookingActions.WriteThenReload | bookingAction.js:212-235 | an accepted write is followed by the reload when `jwt.isLoggedIn()` holds; a rejected one sends nothing more and keeps the list |
| BookingActions.RescheduleRequest | bookingAction.js:209-210 | a cancelled or empty prompt sends nothing; otherwise a PUT with the new date |
| BookingActions.OptionFor | bookingAction.js:163-170 | an option carries the id, the name and the duration or 60 |
| BookingActions.Options | bookingAction.js:163-170 | one option per provider, in order |
| BookingActions.NumberOf | bookingAction.js:250 | `Number` of an empty text is 0; a result other than NaN comes from digits |
| BookingActions.FormBody | bookingAction.js:244-252 | the name serves as provider and service; the duration is `Number` of the option's data |
| BookingActions.FormDurationRoundTrip | bookingAction.js:167 | the duration survives its trip through `data-duration` |
| BookingActions.BuildOptions | bookingAction.js:163-170 | the `forEach` builds exactly `Options(providers)` |
| BookingActions.Page.constructor | bookingAction.js:31-34 | `googleTokens` is read once from storage; nothing selected |
| BookingActions.Page.OpenBookingModal | bookingAction.js:46-51 | the provider becomes the selection |
| BookingActions.Page.ResetBookingModal | bookingAction.js:58-62 | date, notes and selected provider are cleared |
| BookingActions.LoadStep | bookingAction.js:105-122 | the handler's branches compute exactly `LoadRequests` and `BookingsAfterLoad` |
| BookingActions.Page.LoadBookings | bookingAction.js:105-123 | the outbox grows by `LoadRequests`; `allBookings` follows `BookingsAfterLoad` |
| BookingActions.Page.SubmitBooking | bookingAction.js:64-91 | both alerts, modal, outbox and bookings are those of `Submit` |
| BookingActions.Page.Write | bookingAction.js:212-235 | the write, then the reload once it is accepted |
| BookingActions.Page.OpenReschedule | bookingAction.js:208-216 | an empty answer sends nothing; otherwise the write and reload |
| BookingActions.Page.CancelBooking | bookingAction.js:218-223 | nothing without confirmation; otherwise the write and reload |
| BookingActions.Page.DeleteBooking | bookingAction.js:225-230 | nothing without confirmation; otherwise the write and reload |
| BookingActions.Page.CompleteBooking | bookingAction.js:232-235 | no guard: the write and reload |
| BookingActions.Page.LoadProviders | bookingAction.js:157-171 | the select gets one option per provider; a failed request throws and keeps it |
| BookingActions.Page.Init | bookingAction.js:268-276 | on the dashboard the providers load first, and a failure stops the handler |
| BookingActions.Page.CreateFromDashboard | bookingAction.js:241-262 | nothing without a selected option; otherwise the form body is posted, and only an accepted post alerts, resets the form and reloads |
| Theme.SavedMode | dashboard.js:343-351 | dark exactly when "dark" is saved; light by default |
| Theme.Name | dashboard.js:360-364 | the saved value is "dark" exactly for the dark theme |
| Theme.Toggled | dashboard.js:356-366 | the toggle picks dark exactly when the stylesheet is not the dark one |
| Theme.HrefShows | dashboard.js:338-339 | the stylesheet of a theme is recognised as that theme |
| Theme.ToggleFlips | dashboard.js:355-367 | each click flips dark and light |
| Theme.ToggleRemembered | settings.js:138-150 | the theme a click saves is the one the next load starts with |
| Theme.MissingCharNotContained | dashboard.js:356 | an address missing a character of the dark file's name is not dark |
| Theme.Switch.constructor | settings.js:121-122 | the switch holds the store and the current stylesheet |
| Theme.Switch.Load | settings.js:125-135 | the saved theme, light by default, picks the stylesheet |
| Theme.Switch.Toggle | settings.js:138-150 | the stylesheet flips and the new theme is saved |
| Settings.CheckProfile | settings.js:61-66 | refused exactly when the trimmed name or e-mail is empty; otherwise the trimmed values |
| Settings.BlankProfileRefused | settings.js:61-66 | a name made of white space only is refused |
| Settings.ProfileRequestTrimmed | settings.js:61-62 | the sent name and e-mail are trimmed |
| Settings.CheckPassword | settings.js:88-104 | empty fields are refused before the match check; a mismatch is refused; only current and new password are sent |
| Settings.ConfirmationNotSent | settings.js:101-104 | two forms differing only in the confirmation send the same request |
| Settings.Outcome | settings.js:69-79 | success confirms; otherwise `res.error` or the fallback text; a throw is a network error |
| Settings.SettingsLogout | settings.js:155-160 | logout removes exactly `token` and `user` |
| Settings.SettingsLogoutEndsSession | settings.js:155-160 | afterwards nobody is logged in, and Google tokens stay |
| Settings.Startup | settings.js:29-35 | halted exactly when the stored record is not JSON; redirected exactly without a session otherwise |
| Settings.Page.constructor | settings.js:29-35 | halted exactly when the stored record is not JSON; otherwise redirected exactly without a session; empty forms |
| Settings.Page.SubmitProfile | settings.js:58-80 | a refused form sends nothing; otherwise one request and the reply's alert (with the repository's api.js only the network-error reply occurs) |
| Settings.Page.SubmitPassword | settings.js:85-116 | as `CheckPassword`; a success resets the form (with the repository's api.js only the network-error reply occurs) |
| Settings.Page.Logout | settings.js:155-161 | the store changes only after confirmation |
| Wallet.NewUser | wallet.js:31 | a new user has balance 0, no transactions, is no admin, and is sound |
| Wallet.Find | wallet.js:30 | the index of the first user with that name, or none exactly when no user has it |
| Wallet.FindUnique | wallet.js:40 | with unique names the first match is the only one |
| Wallet.Credit | wallet.js:84-85 | exactly one "Added" transaction is appended |
| Wallet.Debit | wallet.js:97-98 | exactly one "Booked Service" transaction with the service is appended |
| Wallet.CreditSound | wallet.js:82-85 | a positive top-up keeps balance = added − booked, raising it by the amount |
| Wallet.DebitSound | wallet.js:95-98 | a booking the balance covers keeps the ledger balanced and non-negative |
| Wallet.ReplaceValid | wallet.js:84-97 | replacing a record by a sound one of the same name keeps the table valid |
| Wallet.PushValid | wallet.js:30-31 | pushing a sound record under a new name keeps names unique |
| Wallet.LowBalance | wallet.js:61 | the flag is set exactly when the balance is below 50 dollars |
| Wallet.FlagMoves | wallet.js:61 | a top-up never sets the flag, a booking never clears it |
| Wallet.KindName | wallet.js:85 | the type text is "Added" exactly for top-ups |
| Wallet.History | wallet.js:64-72 | exactly the transactions the type filter shows |
| Wallet.HistoryAll | wallet.js:72 | with "all", every transaction, newest first |
| Wallet.HistoryNewestFirst | wallet.js:70-72 | a new shown transaction heads the history; a hidden one changes nothing |
| Wallet.AmountText | wallet.js:111 | an amount is written with digits, a point and a sign only |
| Wallet.RowsAppend | wallet.js:111 | the rows of two lists are the rows of each |
| Wallet.RowIsOneLine | wallet.js:111 | a row without line breaks in date or service is one line |
| Wallet.OneLinePerTransaction | wallet.js:110-111 | the export has one line per transaction |
| Wallet.BuildCsv | wallet.js:110-111 | the loop gives the header followed by every row in insertion order |
| Wallet.ServiceCounts | wallet.js:148 | one count per service, in order, summed over users |
| Wallet.BookingsReplace | wallet.js:148 | replacing one record changes the count by that user's difference |
| Wallet.BookingCounted | wallet.js:148 | a booking adds one to its service's count and none to others; a top-up adds none |
| Wallet.LoginIff | wallet.js:40-41 | with unique names, login succeeds exactly for a record holding both name and password |
| Wallet.Page.constructor | wallet.js:2-4 | the stored tables, with nobody signed in |
| Wallet.Page.Current | wallet.js:58 | the signed-in user's record, or none |
| Wallet.Page.Register | wallet.js:26-34 | empty trimmed fields refused, then a taken name; otherwise one fresh record; the table stays valid |
| Wallet.Page.Login | wallet.js:37-51 | success exactly when the first record with the name holds the password; the admin flag follows |
| Wallet.Page.AddMoney | wallet.js:80-88 | an invalid amount, then a missing session, change nothing; otherwise the user is credited; the table stays valid |
| Wallet.Page.DeductMoney | wallet.js:91-101 | an invalid amount, a missing session, then an amount above the balance change nothing; otherwise the user is debited; the table stays valid |
| Wallet.Page.ExportCsv | wallet.js:107-111 | refused without a session or without transactions; otherwise the header and all rows |
| Wallet.Page.AddService | wallet.js:119-126 | refused for an empty trimmed name or a price that is not positive; otherwise appended |
| Chat.DomText | chat.js:122 | a `null` status shows as empty, anything else as its string |
| Chat.BubbleOf | chat.js:145-183 | "me" exactly when the sender is the current user; id, text and status default to ""; one link per attachment |
| Chat.Bubbles | chat.js:130 | one bubble per message, in order |
| Chat.ArrivalOrder | chat.js:107-111 | a live message lands after the ones already shown |
| Chat.FirstWithId | chat.js:121 | the first bubble with the id, or none exactly when no bubble has it |
| Chat.WithStatus | chat.js:119-123 | only the first bubble with the id changes, only its status; with no match nothing changes |
| Chat.StatusFindsBubble | chat.js:119-123 | a status for a bubble's own id reaches that bubble |
| Chat.FailedUploadSkipped | chat.js:194-205 | a failed upload is skipped without affecting the others |
| Chat.UploadedCount | chat.js:201 | at most one attachment per file; all of them when every upload succeeds |
| Chat.CollectAttachments | chat.js:194-207 | the upload loop keeps exactly the successful uploads, in order |
| Chat.OutgoingText | chat.js:189-212 | the trimmed input, else "[attachment]" when something was uploaded, else "" |
| Chat.OutgoingTextEmpty | chat.js:212 | the text is empty exactly for a blank input with nothing uploaded |
| Chat.Client.constructor | chat.js:22-38 | token and user are the stored ones or `null`; connects exactly when both are present and a socket can be opened |
| Chat.Client.Connect | chat.js:88-95 | a socket and the history request, or "Realtime unavailable" |
| Chat.RefusalReason | chat.js:52 | a refused sign-in shows the server's message, or "Login failed" / "Register failed" when there is none |
| Chat.Client.Authenticate | chat.js:41-85 | empty trimmed name or empty password refused before any request; success stores the session and connects |
| Chat.Client.OnInput | chat.js:32-35 | with a socket, emits whether the box holds text |
| Chat.Client.OnPresence | chat.js:102-105 | contacts replaced in order; the count is the list's length |
| Chat.Client.OnMessage | chat.js:107-111 | one bubble appended and a `delivered` with the message's id |
| Chat.Client.OnTyping | chat.js:113-117 | "… is typing..." for a truthy flag, otherwise "Online" |
| Chat.Client.TypingTimerFired | chat.js:116 | the indicator returns to "Online" |
| Chat.Client.OnStatus | chat.js:119-123 | the bubbles become `WithStatus` of the old ones |
| Chat.Client.OnHistory | chat.js:126-132 | an array is appended in order; anything else is ignored |
| Chat.Client.Send | chat.js:186-226 | "Not connected" without a socket; otherwise one upload per file, one message with the successful uploads, and the box cleared |

## Left out

- DOM rendering, routing and modals: the markup templates, `showPage`, display toggles and scrolling. Alerts, confirms and prompts are inputs or `Notice` values.
- Network I/O: every `fetch`, socket.io, the Supabase sign-up in auth.js and multipart uploads. A reply is a datatype parameter, and a thrown call is `None` or `Unreachable`.
- Clock and dates: `new Date`, `toLocaleString`, `formatDateTime` and `addMinutes`. `now` and a booking's time are integer milliseconds; a transaction's date is a given text.
- Dates from `toLocaleString` may contain commas, which would add a CSV column; dates are opaque text here.
- Timers: only the typing reset is modelled, as its own event. `debounce`, `generateId`, the voice recorder and the emoji picker are not modelled.
- Floating point in wallet.js: amounts are integer cents, so `parseFloat` of sub-cent amounts is not modelled. `toFixed` display and the Chart.js charts (balances and the service pie) are not modelled; the service counts are.
- Persistence in wallet.js: `saveData` writes the tables as JSON (the page class holds them instead), and logout is `location.reload`.
- The `connect_error` handler, and the duplicate handlers a second `connectSocket` attaches, are event-loop concerns.
- URL encoding (`encodeURI`, `URLSearchParams`): queries and CSV text are kept unencoded.
- The CSS-selector quoting in the status lookup: a bubble is found by comparing ids.
- Case mapping is ASCII only.
- JSON values are `null`, booleans, integers and strings without surrogate pairs. Objects and arrays are checked against the JSON grammar and kept as their text; `Json.Member` reads one member of an object. Array indexing and `length` are not modelled.
- Json.Parse: a number with a fraction or an exponent ("1.5", "1e3") is read as a syntax error, where `JSON.parse` returns the number; there is no non-integer value in the model. Inside an object such a number is accepted by the grammar, but `Json.Member` stops at it.
- Storage.Get: a stored number with a fraction or an exponent returns the default, where the source returns the number.
- Storage.IsLoggedIn: a token such as "1.5" counts as logged out, where the source parses it to a truthy number.
- HomePage.EmailReadableIff: a user record such as "1.5" counts as unreadable, where `JSON.parse` reads it and `.email` gives `undefined`.
- CustomerDashboard.Page.constructor, Settings.Page.constructor, ProviderDashboard.Open: a user record such as "1.5" halts the page in the model, where the source reads it and goes on. A halted page has no handlers, so the handler methods require `!halted`.
- `Number()` is modelled only for digit strings and the empty string.
- dashboard.js `loadProfile`, `loadNotifications` and `loadBookings`, and settings.js `loadProfile`, `updateProfile` and `changePassword`, call parts of `api` that the repository's api.js lacks. Their results are not modelled; a reload is the `LoadBookings` entry of the outbox.
- CustomerDashboard.Page.OpenEdit, CustomerDashboard.Page.Delete, CustomerDashboard.Page.UpdateStatus, CustomerDashboard.Page.ToggleStatus, CustomerDashboard.Page.SendReminder: dashboard.js:163 calls `api.bookings.getUserBookings`, which api.js:62-68 does not define; the `TypeError` is caught at dashboard.js:165-167, so `renderBookings` never runs and no booking card, and none of these five card buttons, exists. The five handlers model the page as if that call existed.
- CustomerDashboard.Page.OpenEdit, CustomerDashboard.Page.ToggleStatus: the card buttons read the booking's `_id` (dashboard.js:209, :223, :228), while the other pages read `id` (bookingAction.js, provider-dashboard.js). The model has one identifier, `Booking.id`, and treats dashboard.js's `_id` as that `id`. For a record carrying only `id`, the source would keep no edit id (so Confirm posts a new booking) and PATCH `/api/bookings/undefined/status`; the model PUTs and PATCHes that `id`. Likewise the id given to `Delete` is the card's `_id`.
- The e-mail value in auth.js `sendReminderEmail` is not modelled: a reminder request names its booking. Whether reading it throws is modelled (`HomePage.EmailReadable`).
- The provider profile, avatar, verification upload, notifications, overview and header of provider-dashboard.js are outside this model, and so is its logout.
- `fetch` turning an `undefined` header into text: `Http.ProviderHeaders` keeps the `undefined` as a missing value.
- Clearing the amount and service inputs after wallet actions is display state and is not modelled.
- Wallet.AmountText: states only which characters an amount is written with, not that the text reads back as the amount.
- Catalog.FilterProviders: a provider is assumed to carry a name; a missing one is read as "", where `p.name.toLowerCase()` at auth.js:226 throws and the grid stays as it was.
- Catalog.FilterShowsAll: states its result for providers that carry a name; without one the source throws instead of showing all.
- Catalog.CategoryOptionsSpec: a provider is assumed to carry a category; a missing one is labelled "", where `cat.charAt` at auth.js:211 throws.
- Catalog.NameSearch: a provider is assumed to carry a name; a missing one is read as "", where `p.name.toLowerCase()` at dashboard.js:68 throws.
- Catalog.NameSearchEmpty: states its result for providers that carry a name; the source evaluates `p.name.toLowerCase()` even for an empty input and throws without one.
- CustomerDashboard.Page.OpenEdit: a booking is assumed to carry `when`; a missing one fills "", where `b.when.slice(0, 16)` at dashboard.js:216 throws.
- The `$` helper at auth.js:7 returns `document.getElementById` itself rather than the element, so `loginForm?.addEventListener` at auth.js:144 throws and the handlers after it are never attached. The model assumes `$` returns the element, so the login and sign-up handlers exist.
- BookingActions.LoadRequests: without a session on the home page, bookingAction.js:108 writes to `upcomingBookings`, which that module never declares, so the call rejects with a `ReferenceError` instead of showing its message. The model sends nothing in both cases, and the message is not modelled. Where the rejection is caught, in the modal's submit handler, the second alert it causes is modelled (`BookingActions.ReloadAlert`); elsewhere it is an unhandled rejection with nothing to show.
- Settings.Page.SubmitProfile: `api.user.updateProfile` (settings.js:69) does not exist in the repository's api.js (api.js:93-99 exports `auth`, `providers`, `bookings`, `admin` and `notifications`), so the call throws before anything is sent and only the `None` reply ("Network error while updating profile.") can occur. The outbox entry stands for the call the page means to make, and the success and refusal alerts are reachable only with an `api.user`.
- Settings.Page.SubmitPassword: likewise `api.user.changePassword` (settings.js:101) does not exist, so only the `None` reply ("Network error while changing password.") can occur and the form is never reset; the outbox entry stands for the intended call.
- HomePage.Page.HandleAuthResponse: the "Network error" message `loginUser` shows after the exception is not modelled; the method returns the exception as `thrown`.
- HomePage.Submit, BookingActions.Submit: their ensures state only when nothing is sent; the full outcome is the lemmas SubmitRejected and SubmitAccepted beside each.

## Findings

| source | as written | input that shows it | evidently intended | confidence | as-written member | corrected member |
|---|---|---|---|---|---|---|
| utils.js:29-34 | `jwt.getToken` reads the token through `storage.get`, which parses it as JSON. The login paths store the server's token raw: auth.js:78 and chat.js:55 use `localStorage.setItem`. | a stored JWT such as `eyJhbGciOiJIUzI1NiJ9.eyJzdWIiOiIxIn0.c2ln`: `JSON.parse` throws, `getToken` gives `null` and `isLoggedIn` is false | logged in exactly when a non-empty token is stored | not executed; high | Storage.RawTokenNotLoggedIn | Storage.LoggedInAfterStore |
| bookingAction.js:106 | `loadBookings` asks `jwt.isLoggedIn()`, so it inherits the defect above; the page model keeps this gate. | a store holding the JWT above, or the raw token "0": no list request is sent and `allBookings` stays as it was | one list request whenever a non-empty token is stored | not executed; high | BookingActions.RawJwtNeverLoads | BookingActions.CorrectedLoadRequests |
