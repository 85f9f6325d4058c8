# Freelancer dashboard core, modelled in Dafny

This project models the logic that sits underneath a freelancer business dashboard (clients,
commissions, quotes, change requests, invoices, products and notifications, billed through
Stripe or PayPal). The dashboard itself is UI plus calls to a hosted database and to the payment
providers. Its checkable core falls into five groups, and each group is modelled and proved here.

1. **Lifecycle handlers over an abstract store.**
   - The store is a `Store.Db` class: a map from id to row per table, and an append-only sequence per insert-only table.
   - A failing database call is chosen by a `fails` set passed to each handler.
   - Modelled handlers: quote accept/reject (`QuoteRoutes`), change-request insertion (`RequestInsert`), the two API-key endpoints (`ApiKeys`), and Stripe and PayPal invoice issuance (`StripeInvoice`, `PayPalInvoice`).
   - Stripe and PayPal are classes that record every call and answer from fixed tables, so "no provider call was made" can be stated.
   - Each handler's contract gives the exact status code, and which tables changed, on every path.
2. **The per-IP rate limiter** (`RateLimiter`).
   - The mutable `requestCounts` map is a class field.
   - Each request's effect is a function, `Handle`.
   - Proved: the fixed window, the count bound, and pruning only on refusal.
3. **Date and string utilities.**
   - Monday-start month grid (`MonthGrid`, over the day-number calendar in `Calendar`).
   - Relative-time wording (`TimeUntil`), deadline colour (`DeadlineColor`), DD/MM/YY formatting (`FormatDate`).
   - Page titles from paths (`PageTitle`), saved-view links (`Views`), notification placeholders (`NotificationWidget`).
   - Sidebar e-mail mask, active-link test and widget totals (`Sidebar`), and password strength (`Settings`).
4. **Dashboard aggregations** (`Tally`, `PopularProducts`, `ProductRevenue`, `UnpaidCommissions`, `MonthlyRevenue`, `WeekData`, `Overview`).
   - Per-key tallies, the top-five products, unpaid commissions, twelve monthly and two weekly buckets, and headline totals.
5. **The client-side list pipeline** (`ListPipeline`, plus one module per list page: `CommissionsPage`, `InvoicesPage`, `QuotesPage`, `RequestsPage`, `ClientsPage`).
   - Pinned rows first; case-insensitive substring search; equality filters.
   - A comparator read as a sort key, negated for "descending", applied by a stable sort.
   - Pages of ten rows with `ceil(n/10)` pages, and merge-by-id and remove-by-id refreshes.
   - The product list (`Products`), the commission menu (`CommissionMenu`) and the two create modals (`RequestModal`, `InvoiceModal`) sit beside it.

Code that updates state step by step is modelled as imperative Dafny.
- The rate limiter, the store, the payment providers, every list page, the settings panel, the product list, the commission menu and the modals are classes.
- Their methods carry `modifies` clauses, and each method's new state is tied to a specification function.
- The loops in the source (month grid, strength, tallies, buckets, rate-limiter pruning, view links) are `while` loops with invariants against recursive specifications.
- Pure chains (`filter`/`map`/`sort`/`reduce`, string pipelines) are functions with lemmas.

Modelling conventions:
- Timestamps are integer milliseconds in local time.
- Strings are `seq<char>` with ASCII case folding.
- `localeCompare` and `Date` parsing are an abstract rank function (`collate`).
- Money is `real` where the source sums JavaScript numbers, and a whole number where the source applies `parseInt`.
- A module that models one source file names it in its header comment.

## Model

| member | source | states |
|---|---|---|
| RateLimiter.EffectiveLimit | utils/rateLimiter.js:4 | an omitted per-minute limit defaults to 20 requests, a given one is used as is |
| RateLimiter.Limiter.constructor | utils/rateLimiter.js:2 | the module-level request table starts empty |
| RateLimiter.Handle | utils/rateLimiter.js:8-24 | a new or expired requester (strictly older than 60 000 ms) passes and restarts at count 1 stamped now; inside the window a request passes exactly when count < limit, counts one more and keeps the window start; a pass touches no other requester; a refusal answers 429, keeps the requester's own entry and deletes exactly the expired entries |
| RateLimiter.HandleKeepsBounded | utils/rateLimiter.js:8-16 | for a limit of at least 1, every stored count stays within 1..limit across any request |
| RateLimiter.Run | utils/rateLimiter.js:4-25 | a series of requests from one address yields one outcome per request |
| RateLimiter.Allowed | utils/rateLimiter.js:10-15 | n outcomes, every one of them a pass |
| RateLimiter.BurstFromEntry | utils/rateLimiter.js:8-24 | from an entry with count c in a window that has not expired, the next limit − c requests pass and the one after is refused with 429: the window is fixed at its first request, not sliding |
| RateLimiter.FirstBurst | utils/rateLimiter.js:8-24 | an unseen address gets exactly `limit` passes inside one window and then a 429 |
| RateLimiter.Limiter.Request | utils/rateLimiter.js:4-25 | the mutable `requestCounts` map moves exactly as `Handle` says, and the outcome is Handle's |
| QuoteRoutes.Accept | app/api/quote/accept/route.js:5-50 | a missing quote id or undefined acceptedTos gives 400 and a falsy acceptedTos another 400, both with nothing written; an unreadable quote crashes the route with nothing written; a status other than "pending" gives 400 with nothing written; on the pending path the status is written before the commission insert and stays written when that insert fails (500, no rollback); the notification is written only when both writes succeeded; a failed notification still answers 200; only a pending quote can change status |
| QuoteRoutes.RecordAcceptance | app/api/quote/accept/route.js:21-49 | the writes after the guard: status "accepted" unless that update failed; the commission row (status "not_started", total_value = proposedAmount, deadline, title, client id, panel id) unless the insert failed; the notification "%subject_username% has accepted quote <id>!" only when both succeeded; 500 on either failure, with the commission error reported first; 200 otherwise; no other table changes |
| QuoteRoutes.Reject | app/api/quote/reject/route.js:5-35 | only an absent quote id gives 400 up front; an unreadable quote crashes with nothing written; a non-pending quote gives 400 with nothing written; a pending quote becomes "rejected", a failed update gives 500 with no notification, and success writes one "%subject_username% has rejected quote <id>!" notification with subject = client and answers 200 even when that insert failed |
| QuoteRoutes.RecordRejection | app/api/quote/reject/route.js:17-34 | the writes after the guard: a failed update gives 500 and changes nothing; otherwise the status becomes "rejected", at most one notification is appended and the answer is 200; commissions, requests, settings, clients and invoices are untouched |
| QuoteRoutes.RejectThenAccept | app/api/quote/reject/route.js:12-17 | after a successful reject of a pending quote, accepting that quote fails the pending guard with 400, and no commission is created |
| RequestInsert.Insert | app/api/request/insert/route.js:7-52 | the commission is looked up by tracking id and id together; a lookup error gives 500 and no match gives 400, neither inserting; the inserted request carries panel id, commission, description, offered amount and deadline and no status; an insert failure gives 500 with no notification; success appends the request, appends the "New change request" notification with subject = client id unless that insert failed, and answers 200 with the row |
| ApiKeys.BearerToken | app/api/v1/create/request/route.js:17-21 | a token is read exactly when the header is present and starts with "Bearer " |
| ApiKeys.BearerTokenIsRest | app/api/v1/create/request/route.js:21 | the token is a prefix of the text after "Bearer ", and is all of that text unless "Bearer " occurs in it again (the split takes only the piece before the next separator) |
| ApiKeys.KeyOwner | app/api/v1/create/request/route.js:23 | the first settings row whose key equals the token and whose licence is active, or −1 exactly when there is none |
| ApiKeys.Authorise | app/api/v1/create/request/route.js:15-41 | no usable header gives 401, a lookup error 500, an unknown key 403 and zero uses left 403, all with the quota untouched; a failed decrement gives 500 with nothing changed; otherwise the owner's api_uses_left is lowered by exactly one and the owner id is returned; it passes exactly when `Passes` holds |
| ApiKeys.SpendingOneUse | app/api/v1/create/request/route.js:38 | with distinct row ids, the decrement changes only the owner's row, and only its api_uses_left, by one |
| ApiKeys.CreateRequest | app/api/v1/create/request/route.js:6-52 | a missing or empty `commission` gives 400 before any authentication and changes nothing; a failed authorisation changes nothing; once authorised the use stays spent, an insert failure gives 500 with no request row, and success inserts one row carrying only the owner as panel id (the `commission` value is not passed on) and answers 200 with it |
| ApiKeys.ReadParams | app/api/v1/select/client/route.js:7 | each search parameter is read exactly when the query string holds it, with its value |
| ApiKeys.ClientQueryIsScoped | app/api/v1/select/client/route.js:39 | a selected row is a client row owned by the key owner whose chosen column equals the search value, and every such row is selected |
| ApiKeys.AsWrittenSelectFails | app/api/v1/select/client/route.js:7 | destructuring the URLSearchParams object as written leaves both parameters undefined, so the select never succeeds |
| ApiKeys.SelectByEmailWitness | app/api/v1/select/client/route.js:7 | a concrete query `searchBy=email&searchValue=a@b.c` that finds the owner's row when the parameters are read with `get`, and fails as written |
| ApiKeys.Select | app/api/v1/select/client/route.js:11-46 | a failed authorisation changes nothing; once authorised the use is spent before the select and stays spent when the select fails (500); success answers 200 with exactly the scoped rows |
| ApiKeys.SelectClientAsWritten | app/api/v1/select/client/route.js:6-47 | the route as written: an authorised call spends one use and still answers 500 with no data |
| ApiKeys.SelectClient | app/api/v1/select/client/route.js:6-47 | the corrected route, reading the parameters with `get`: it spends one use and answers with the owner's rows matching the search |
| StripeInvoice.StripeApi.constructor | app/api/invoices/create/route.js:25 | a Stripe account stand-in with the given customer table and answers, and no calls received yet |
| StripeInvoice.StripeApi.Call | app/api/invoices/create/route.js:55-91 | each Stripe call is recorded in order, with the key it used; a customer or invoice creation answers the account's new id, and finalising or sending answers the invoice it was given |
| StripeInvoice.StripeApi.Search | app/api/invoices/create/route.js:50-52 | a customer search is recorded and answers the ids of the customers with that e-mail |
| StripeInvoice.StoredRowWithoutKeyHasNoKey | app/api/invoices/create/route.js:17-23 | when the tenant's settings row is read and holds no `sk`, the stored (absent) key is used rather than the environment's |
| StripeInvoice.DueSeconds | app/api/invoices/create/route.js:71 | the due date in whole epoch seconds: floor of the given due date, or of now + 30 days, divided by 1000 |
| StripeInvoice.Cents | app/api/invoices/create/route.js:83 | the line item amount divided back by a hundred is the amount, and is positive exactly when the amount is |
| StripeInvoice.WholeCents | app/api/invoices/create/route.js:83 | an amount in whole cents is sent as that whole number of cents: 12.34 as 1234 |
| StripeInvoice.SetStripeId | app/api/invoices/create/route.js:60-64 | the client row with this tenant and id gets the Stripe customer id; every other row is unchanged |
| StripeInvoice.Issue | app/api/invoices/create/route.js:69-91 | exactly four Stripe calls in order: create the invoice (customer, due seconds, "usd", memo, client id), one line item of the amount times 100 in "usd" for that invoice, finalise, send |
| StripeInvoice.FindOrCreateCustomer | app/api/invoices/create/route.js:48-67 | the first customer with the client's e-mail is reused; otherwise one is created with that e-mail and name, and its id is saved on the tenant's client row unless that update fails; nothing else in the store changes |
| StripeInvoice.CreateStripeInvoice | app/api/invoices/create/route.js:9-116 | the stored `sk` is used when the settings row is read, otherwise the environment key; the guards run in order (no key, no client, no client e-mail, falsy amount), each answering 400 before any Stripe call and writing nothing; then the customer is reused or created, the invoice issued, and the local row (status "unpaid", type "stripe", hosted link, sent id) inserted, answering 200 with it, or 400 if the insert fails |
| PayPalInvoice.DatePartOfTimestamp | app/api/invoices/create-paypal/route.js:14 | the due date sent is the part of the ISO timestamp before its "T" |
| PayPalInvoice.DueDayOfTimestamp | app/api/invoices/create-paypal/route.js:14 | the day sent is the date part of the due instant's ISO text; a missing due date or one beyond the range of a `Date` gives none, as `toISOString` throws |
| PayPalInvoice.PayloadHasOneItem | app/api/invoices/create-paypal/route.js:16-51 | the payload has exactly one item, of quantity 1, in "USD", described by the title, due on the given day, with the terms passed through `stripHtml`, addressed to the client's e-mail; a whole price is sent as its decimal digits and 12.5 as "12.5" |
| PayPalInvoice.InvoiceIdFromHref | app/api/invoices/create-paypal/route.js:61 | the id holds no "/" |
| PayPalInvoice.InvoiceIdIsLastSegment | app/api/invoices/create-paypal/route.js:61 | the id is the text after the last "/" of the returned href |
| PayPalInvoice.PayPalLink | app/api/invoices/create-paypal/route.js:131 | the link starts with "https://www.paypal.com/invoice/p/#" and no "-" follows it |
| PayPalInvoice.PayPalLinkIsReplaceAll | app/api/invoices/create-paypal/route.js:131 | the link is the prefix followed by the id with every "-" removed (`replaceAll("-", "")`) |
| PayPalInvoice.CredentialsNeverMixed | app/api/invoices/create-paypal/route.js:95-102 | the credential pair is either both environment values or both tenant values, never a mix, and the tenant's are used whenever its row holds both |
| PayPalInvoice.BasicCredentialsSplit | app/api/invoices/create-paypal/route.js:108 | the credentials text "id:secret" gives back the client id before its first ":" (base64 is not modelled) |
| PayPalInvoice.DetailsOf | app/api/invoices/create-paypal/route.js:110 | with a settings row, the terms, logo and display name are the row's, as the destructuring reads them; without one they are empty |
| PayPalInvoice.EnvironmentFallbackThrows | app/api/invoices/create-paypal/route.js:96-110 | a tenant with no settings row and an environment holding both credentials passes the credentials check, and the destructuring as written then has no row to read |
| PayPalInvoice.PayPalApi.constructor | app/api/invoices/create-paypal/route.js:9-11 | a PayPal account stand-in with the href its create answers, and no calls received yet |
| PayPalInvoice.PayPalApi.Create | app/api/invoices/create-paypal/route.js:53-58 | a create call is recorded with its credentials and payload, and answers the account's href |
| PayPalInvoice.PayPalApi.Send | app/api/invoices/create-paypal/route.js:68-84 | a send call is recorded; its outcome is only logged, so it returns nothing |
| PayPalInvoice.Issue | app/api/invoices/create-paypal/route.js:112-161 | a missing or out-of-range due date gives 500 before any PayPal call; no href or an empty id gives 500 with nothing written after the create call; otherwise the invoice is sent, a send failure is ignored, and the local row (status "pending", type "paypal", link without dashes) is inserted and answered with 200, or 500 when the insert fails |
| PayPalInvoice.CreatePayPalInvoiceAsWritten | app/api/invoices/create-paypal/route.js:86-162 | the route as written: missing credentials give 400 with no call; with environment credentials and no settings row it throws (500) before any PayPal call; with a row the due date, create, send and insert follow with every outcome `Issue` states, using the row's details |
| PayPalInvoice.CreatePayPalInvoice | app/api/invoices/create-paypal/route.js:86-162 | the corrected route: credentials resolved as a pair, 400 when either is missing, then the due date, create, send and insert with every outcome `Issue` states, with the details empty when there is no settings row |
| Store.Db.constructor | app/api/quote/accept/route.js:3 | a store holding exactly the given tables |
| Calendar.MonthLength | utils/daysInMonth.js:7-16 | a month has 28 to 31 days, and February has 29 exactly in a leap year (the `getDate()` of day 0 of the next month) |
| Calendar.DaysBeforeMonth | utils/daysInMonth.js:6 | the days before month m lie between 28 and 31 per earlier month of the year |
| Calendar.Weekday | utils/daysInMonth.js:9 | `getDay()` of a day number: 0 for Sunday through 6, with 1 January 1970 a Thursday |
| Calendar.WeekdayNext | utils/daysInMonth.js:12-24 | the next day's weekday is one more, modulo 7 |
| Calendar.WeekdayShift | utils/daysInMonth.js:12-24 | k days on, the weekday is k more, modulo 7 |
| Calendar.YearLength | utils/daysInMonth.js:7 | a year has 366 days when it is a leap year and 365 otherwise |
| Calendar.MonthsMakeYear | utils/daysInMonth.js:7 | the twelve month lengths add up to the year's length |
| Calendar.LastDayPrecedesNextMonth | utils/daysInMonth.js:7-24 | the day after a month's last day is the next month's 1st, across a year end too |
| MonthGrid.LeadingDays | utils/daysInMonth.js:9 | the number of leading days is the 1st's weekday index in a Monday-start week (Sunday gives 6, else getDay − 1), lies in 0..6, and steps back to a Monday |
| MonthGrid.TrailingDays | utils/daysInMonth.js:21 | the number of trailing days is 7 − (Sunday ? 7 : getDay) of the last day, lies in 0..6 and reaches a Sunday |
| MonthGrid.WholeWeeks | utils/daysInMonth.js:9-26 | a run of days from a Monday to a Sunday is a whole number of weeks |
| MonthGrid.ShownMonthShape | utils/daysInMonth.js:9-26 | in a grid of the month: the leading cells are the consecutive dates just before the 1st, marked not in the month; every date 1..length appears once, in order, marked in the month; the trailing cells are the consecutive dates after the last day, marked not in the month; the dates are consecutive, the first is a Monday, the last a Sunday, and the length is a multiple of 7 |
| MonthGrid.DaysInMonth | utils/daysInMonth.js:1-29 | the three loops build exactly the grid of the given month (`ShownMonth`): leading, month and trailing cells in order |
| TimeUntil.Round | utils/timeUntil.js:11-15 | `Math.round(a / b)` for non-negative a: the nearest whole quotient, halves rounded up |
| TimeUntil.Pluralize | utils/timeUntil.js:1-3 | the unit unchanged exactly when the quantity is 1, otherwise the unit followed by "s" |
| TimeUntil.CountsArePositive | utils/timeUntil.js:11-35 | every printed count is at least 1, and a printed day count at least 2 (one day has its own wording), because each unit is reached only when the previous, already rounded, unit overflowed |
| TimeUntil.MomentUnderAMinute | utils/timeUntil.js:11-18 | "a moment ago" / "in a few seconds" is chosen exactly when the gap is under 59 500 ms, that is when the rounded seconds are under 60 |
| TimeUntil.OneDayWording | utils/timeUntil.js:23-24 | exactly one day ahead reads "tomorrow" and exactly one day back "yesterday" |
| TimeUntil.SymmetricMagnitude | utils/timeUntil.js:7-9 | a date d ms ahead and one d ms back are described by the same magnitude, only the tense differs |
| TimeUntil.DescribedUnits | utils/timeUntil.js:19-35 | a printed unit is one of minute, hour, day, week, month or year |
| TimeUntil.PastRendersPast | utils/timeUntil.js:17-35 | every past-tense rendering reads as past ("a moment ago", "yesterday" or "… ago") |
| TimeUntil.FutureIsNotPast | utils/timeUntil.js:17-35 | no future-tense rendering reads as past |
| TimeUntil.TenseFollowsSign | utils/timeUntil.js:7-9 | the result is past-tense exactly when the date is before now |
| DeadlineColor.ColorBasedOnTime | utils/getColorBasedOnTime.js:5-17 | red exactly when the date is at most one hour ahead (now or past included), orange exactly when more than one hour and at most one day ahead, green exactly when more than one day ahead |
| DeadlineColor.LaterIsCalmer | utils/getColorBasedOnTime.js:5-17 | the colour is monotone in the deadline: a later date is never more urgent (red, then orange, then green) |
| FormatDate.TwoDigitsReadBack | utils/formatDate.js:4-5 | a value under 100 zero-padded to two characters is two digits that read back as the value |
| FormatDate.LastTwoDigits | utils/formatDate.js:6 | the last two characters of a number of two or more digits are its tens and units digits |
| FormatDate.YearReadsBack | utils/formatDate.js:6 | `slice(-2)` of a year of two or more digits is two digits reading back as year mod 100 |
| FormatDate.FormatReadsBack | utils/formatDate.js:1-9 | the output is 8 characters, day "/" month "/" year, each part two digits reading back as the day, getMonth()+1 and the year mod 100 |
| PageTitle.Segments | hooks/usePageTitle.js:10-11 | the segments are non-empty and hold no "/" |
| PageTitle.NonEmpty | hooks/usePageTitle.js:11 | `filter(Boolean)` keeps exactly the non-empty pieces |
| PageTitle.NonEmptyAppend | hooks/usePageTitle.js:11 | dropping empty pieces distributes over concatenation |
| PageTitle.Spaced | hooks/usePageTitle.js:12 | every "-" and "_" becomes a space; every other character is unchanged |
| PageTitle.Capitalise | hooks/usePageTitle.js:8 | only the first character is upper-cased; the rest is unchanged |
| PageTitle.Titles | hooks/usePageTitle.js:12-13 | one title per segment, each spaced then capitalised |
| PageTitle.SegmentsSplitAtSlash | hooks/usePageTitle.js:10-11 | the segments of a + "/" + b are those of a followed by those of b |
| PageTitle.LeadingSlashIgnored | hooks/usePageTitle.js:10-17 | a leading "/" does not change the title |
| PageTitle.TrailingSlashIgnored | hooks/usePageTitle.js:10-17 | a trailing "/" does not change the title |
| PageTitle.DoubledSlashIgnored | hooks/usePageTitle.js:10-17 | a doubled "/" reads like a single one |
| PageTitle.HomeIffNoSegments | hooks/usePageTitle.js:14-17 | with segments the title is their titles joined with " - "; "Home" is the result exactly when there are none, or when the joined titles are themselves "Home" |
| PageTitle.JoinNonEmpty | hooks/usePageTitle.js:14 | joining pieces whose first is non-empty gives a non-empty text |
| PageTitle.NoSlashOrUnderscore | hooks/usePageTitle.js:10-17 | the title never contains "/" or "_" |
| PageTitle.JoinAvoids | hooks/usePageTitle.js:14 | a character absent from every piece and from the separator is absent from the joined text |
| Views.QueryParams | hooks/useViews.js:20-25 | the parameters come in the fixed order sort, descending, filter, status, each at most once; each present one carries its source field, with descending = (sortOrder !== "ascending") |
| Views.HasKeyAppend | hooks/useViews.js:20-25 | a key is among the parameters of a concatenation exactly when it is among either part's |
| Views.HasKeyOptional | hooks/useViews.js:22-25 | an optional push holds a key exactly when it was pushed and has that key |
| Views.KeyPresence | hooks/useViews.js:22-25 | a key is emitted exactly when it is one of the four and its source field is truthy (non-empty) |
| Views.QueryParamsPresence | hooks/useViews.js:22-25 | sort, descending, filter and status are each emitted exactly when sort, sortOrder, filterClient and filterStatus respectively are non-empty |
| Views.HasKeyAppend4 | hooks/useViews.js:22-25 | the same for the four optional pushes in a row |
| Views.BuildQueryParams | hooks/useViews.js:20-25 | the pushes into the local `queryParams` array build exactly `QueryParams` |
| Views.Render | hooks/useViews.js:22-27 | one "key=value" text per parameter, in order |
| Views.SearchNotEmitted | hooks/useViews.js:22-28 | the saved search and commission filter never affect the link |
| Views.Transform | hooks/useViews.js:19-31 | one link per view in input order, keeping the id, with label = name and link = page + "/?" + the parameters joined with "&" |
| Views.ViewsProvider.constructor | hooks/useViews.js:11 | the views list starts empty |
| Views.ViewsProvider.FetchData | hooks/useViews.js:14-34 | a fetch error leaves the views list unchanged; otherwise it becomes the transformed views |
| Views.ViewsProvider.RefreshData | hooks/useViews.js:36-38 | a refresh is a fetch: the same two outcomes |
| NotificationWidget.DisplayedIsSplitJoin | components/NotificationWidget/NotificationWidget.jsx:32 | for a username without "$", the displayed message is the message split at every "%subject_username%" and joined with the username |
| NotificationWidget.PlainMessageShownAsIs | components/NotificationWidget/NotificationWidget.jsx:32 | a message without the placeholder is displayed unchanged |
| NotificationWidget.LeadingPlaceholder | components/NotificationWidget/NotificationWidget.jsx:32 | a message that starts with the placeholder, as the stored notifications do, shows a username without "$" in its place |
| NotificationWidget.DollarPatternsInUsername | components/NotificationWidget/NotificationWidget.jsx:32 | the username's "$" patterns are expanded: "a$$b" shows as "a$b" and "$&!" as the placeholder followed by "!" |
| NotificationWidget.Background | components/NotificationWidget/NotificationWidget.jsx:21 | the highlighted background "dark.6" is used exactly while the card is unread, in or out of the popover |
| NotificationWidget.Card.constructor | components/NotificationWidget/NotificationWidget.jsx:11 | the local read flag starts as the stored `read` value |
| NotificationWidget.Card.MarkAsRead | components/NotificationWidget/NotificationWidget.jsx:13-19 | a click sets the local flag to read (and the card no longer highlighted) whether or not the store update fails; the stored flag becomes read only when the update succeeds |
| NotificationWidget.FailedReadDiverges | components/NotificationWidget/NotificationWidget.jsx:13-19 | a failed update leaves the card shown as read while the stored notification stays unread |
| Sidebar.WidgetIsWholeLessClosed | components/Sidebar/Sidebar.jsx:99-103 | the widget's value and count are those of all commissions less the completed and cancelled ones |
| Sidebar.WidgetMembers | components/Sidebar/Sidebar.jsx:99 | a commission is counted exactly when its status is neither "completed" nor "cancelled" |
| Sidebar.LastAtIs | components/Sidebar/Sidebar.jsx:212 | the greedy `(.*)` ends just before the last "@" |
| Sidebar.LastAtBetween | components/Sidebar/Sidebar.jsx:212 | for a + "@" + b with no "@" in b, the match point is right after a |
| Sidebar.LocalPart | components/Sidebar/Sidebar.jsx:212 | `split('@')[0]` is the text before the first "@" |
| Sidebar.MaskOneAt | components/Sidebar/Sidebar.jsx:212 | for an e-mail with one "@" and a local part of length n ≥ 1, the mask is max(0, n−2) stars, then the last local character, then "@" and the domain |
| Sidebar.MaskNeedsLocalCharacter | components/Sidebar/Sidebar.jsx:212 | an e-mail with no "@", or whose only "@" comes first, does not match the pattern and is shown unchanged |
| Sidebar.RemoveFirst | components/Sidebar/Sidebar.jsx:180 | `replace("/", "")` removes one character when the pathname holds a "/", and changes nothing otherwise |
| Sidebar.ActiveGroupIff | components/Sidebar/Sidebar.jsx:180 | a link group is active exactly when its lower-cased label contains the pathname with its first "/" removed; at "/" every group is active |
| Sidebar.ViewTable.constructor | components/Sidebar/Sidebar.jsx:145 | the saved-views table holds the given views |
| Sidebar.DeleteView | components/Sidebar/Sidebar.jsx:144-160 | a failed delete shows the error toast and changes neither the table nor the links; a successful one removes exactly that view, shows the success toast, and refreshes the links (unless the re-read fails), after which no link has the deleted id |
| Tally.Distinct | utils/chartdata/popularProductData.js:13 | the keys of a dictionary in insertion order (first occurrences), no more of them than inputs |
| Tally.DistinctSpec | utils/chartdata/popularProductData.js:13 | the keys hold no duplicates and are exactly the values that occur |
| Tally.DistinctSnoc | utils/chartdata/popularProductData.js:6 | one more value adds a key exactly when it is new, at the end |
| Tally.Count | utils/chartdata/popularProductData.js:6 | a count never exceeds the number of values |
| Tally.CountAbsent | utils/chartdata/popularProductData.js:6 | a value that does not occur counts 0 |
| Tally.SumCountsAppend | utils/chartdata/popularProductData.js:13-18 | summing counts over a concatenation of keys sums the parts |
| Tally.SumCountsStep | utils/chartdata/popularProductData.js:4-7 | one more value raises the summed counts of distinct keys by one exactly when it is among them |
| Tally.CountsSumToLength | utils/chartdata/popularProductData.js:4-18 | the counts of the distinct values add up to the number of values |
| PopularProducts.Descriptions | utils/chartdata/popularProductData.js:4-5 | the descriptions of the completed commissions that have a product, in order |
| PopularProducts.CountSnoc | utils/chartdata/popularProductData.js:6 | appending a description raises its count by one and no other |
| PopularProducts.CountKnown | utils/chartdata/popularProductData.js:6 | counting an already-seen description by `+ 1` keeps the dictionary equal to the counts and its key order unchanged |
| PopularProducts.CountNew | utils/chartdata/popularProductData.js:6 | counting a new description (`(undefined \|\| 0) + 1`) adds it with count 1 at the end of the key order |
| PopularProducts.CompletionsCounted | utils/chartdata/popularProductData.js:2-7 | the `forEach` leaves the dictionary holding, for each description in first-seen order, the number of counted commissions with it |
| PopularProducts.PopularProductData | utils/chartdata/popularProductData.js:1-20 | one slice per distinct description, in first-seen order, whose value is the number of completed commissions with that product description and whose colour is palette entry (index mod 5) |
| PopularProducts.SlicesAreDistinct | utils/chartdata/popularProductData.js:13-17 | no description gets two slices, and every counted description gets one |
| PopularProducts.ValuesSumToCompleted | utils/chartdata/popularProductData.js:4-18 | the slice values add up to the number of completed commissions that have a product |
| PopularProducts.UncountedChangesNothing | utils/chartdata/popularProductData.js:4 | a commission that is not completed or has no product changes nothing |
| ProductRevenue.Products | utils/chartdata/productRevenue.js:4-5 | the product descriptions of the commissions that have a product, in order |
| ProductRevenue.EarnedAbsent | utils/chartdata/productRevenue.js:5-9 | a product without commissions has earned 0 |
| ProductRevenue.Entries | utils/chartdata/productRevenue.js:12 | one entry per product in first-seen order, carrying the sum of total_paid over that product's commissions |
| ProductRevenue.TopFiveSpec | utils/chartdata/productRevenue.js:12-14 | min(5, n) entries sorted by Earned, largest first, all taken from the input, and every kept entry has earned at least as much as every dropped one |
| ProductRevenue.Snoc | utils/chartdata/productRevenue.js:3-10 | one more commission adds its product to the list and its total_paid to that product's earnings only |
| ProductRevenue.AddNoProduct | utils/chartdata/productRevenue.js:4 | a commission without a product leaves the running totals correct unchanged |
| ProductRevenue.AddToKnown | utils/chartdata/productRevenue.js:9 | adding total_paid to a known product keeps the running totals equal to the sums |
| ProductRevenue.AddToNew | utils/chartdata/productRevenue.js:6-9 | a new product starts at 0, gets total_paid, and joins the key order at the end |
| ProductRevenue.RunningTallied | utils/chartdata/productRevenue.js:2-10 | the `forEach` leaves each product's total equal to the sum of its commissions' total_paid, keys in first-seen order |
| ProductRevenue.TotalEarnedByProduct | utils/chartdata/productRevenue.js:2-10 | the loop over the commissions builds exactly those per-product totals and key order |
| ProductRevenue.GetTotalRevenueByProduct | utils/chartdata/productRevenue.js:1-18 | the top five products by earnings, largest first, each with ignore = 0 and ignore2 = 0 |
| ProductRevenue.NoProductChangesNothing | utils/chartdata/productRevenue.js:4 | a commission without a product changes no product's earnings and adds no product |
| UnpaidCommissions.UnpaidSpec | utils/chartdata/getUnpaidCommissions.js:1-16 | min(limit, n) entries taken in input order from the commissions with total_value > total_paid, each with unpaidAmount = total_value − total_paid (strictly positive), and the commission's title and client avatar |
| UnpaidCommissions.UnpaidFromInput | utils/chartdata/getUnpaidCommissions.js:3-14 | every entry summarises a commission of the input that owes money |
| UnpaidCommissions.PageFromListSlice | utils/chartdata/getUnpaidCommissions.js:4 | whatever the slice keeps comes from the filtered list |
| UnpaidCommissions.DefaultAtMostFive | utils/chartdata/getUnpaidCommissions.js:1 | with the default limit, at most 5 entries are returned |
| MonthlyRevenue.TotalRevenueRaise | utils/chartdata/monthlyRevenue.js:15 | raising one bucket raises the total by the same amount |
| MonthlyRevenue.TotalRevenueZero | utils/chartdata/monthlyRevenue.js:8 | buckets all at 0 total 0 |
| MonthlyRevenue.Buckets | utils/chartdata/monthlyRevenue.js:8-17 | there are always 12 buckets |
| MonthlyRevenue.BucketsHoldTotals | utils/chartdata/monthlyRevenue.js:8-17 | after the `forEach`, bucket j holds month first + j and the summed total_paid of that month's commissions, and the buckets add up to the in-window total |
| MonthlyRevenue.CalculateMonthlyRevenue | utils/chartdata/monthlyRevenue.js:1-23 | exactly 12 buckets, oldest first, ending with the current month; each holds the summed total_paid of the commissions created that month; commissions outside the window add nothing, and the revenues add up to the summed total_paid of the in-window commissions |
| MonthlyRevenue.OutsideWindowChangesNothing | utils/chartdata/monthlyRevenue.js:14 | a commission created outside the twelve months changes no bucket and not the total |
| MonthlyRevenue.WindowCrossesYear | utils/chartdata/monthlyRevenue.js:3-4 | in January the window starts in February of the previous year |
| WeekData.StartOfWeek | utils/chartdata/overallChart.js:2-7 | the week starts on the Sunday on or before today, at midnight |
| WeekData.IndexIsDayOffset | utils/chartdata/overallChart.js:30-33 | inside a Sunday-start week, `getDay()` is the day's offset from the start |
| WeekData.InstantInWeek | utils/chartdata/overallChart.js:29-32 | an instant lies in the seven days from a week start exactly when its calendar day does |
| WeekData.AddToCurrent | utils/chartdata/overallChart.js:29-31 | an item in the current week adds its total_value to "current week" at its weekday, keeping the rows equal to the totals |
| WeekData.AddToPrevious | utils/chartdata/overallChart.js:32-34 | an item in the preceding seven days adds its total_value to "previous week" at its weekday, keeping the rows equal to the totals |
| WeekData.AddToNeither | utils/chartdata/overallChart.js:29-35 | an item outside the fourteen days leaves the rows, and the totals, unchanged |
| WeekData.Tally | utils/chartdata/overallChart.js:26-35 | the seven rows stay seven |
| WeekData.Rows | utils/chartdata/overallChart.js:19-36 | the seven rows stay seven |
| WeekData.RowsTotal | utils/chartdata/overallChart.js:19-36 | after the `forEach`, each weekday's "current week" and "previous week" are the summed total_value of the items created on that weekday in the current and the previous week |
| WeekData.AddCommission | utils/chartdata/overallChart.js:26-35 | the callback adds the item's total_value to the right row and series, as `Tally` states |
| WeekData.GetWeekData | utils/chartdata/overallChart.js:1-39 | exactly 7 rows, one per weekday from Sunday; row j holds the summed total_value (not total_paid) of the items created on weekday j of the current week and of the week before |
| WeekData.OutsideSpanChangesNothing | utils/chartdata/overallChart.js:29-35 | an item outside the fourteen-day span changes neither series |
| WeekData.CurrentWeekLandsAtOffset | utils/chartdata/overallChart.js:29-31 | an item created this week adds its total_value to "current week" at its offset from the Sunday, and to nothing else |
| Overview.OwedIsValueLessRevenue | components/Overview.jsx:54-59 | total owed is the summed total_value less total revenue |
| Overview.FiguresWithinValue | components/Overview.jsx:54-59 | when no commission is overpaid, revenue and owed both lie between 0 and the summed total_value |
| Overview.OverpaidOwesNegative | components/Overview.jsx:59 | an overpaid commission makes total owed negative |
| Overview.SumSplits | components/Overview.jsx:54-59 | a sum over the commissions is the sum over those meeting a test plus the sum over the rest |
| Overview.CountSplits | components/Overview.jsx:57-62 | the rows meeting a test and the rows failing it together are all the rows |
| Overview.HeadlineCounts | components/Overview.jsx:57-62 | the completed count is the number of commissions with status "completed", and the open requests are those whose status is not completed, cancelled or rejected; each count and its complement make up the whole |
| Overview.OpenRequestsStep | components/Overview.jsx:62 | one more request adds one to the open count exactly when its status is not completed, cancelled or rejected |
| Entities.Trunc | components/Commissions.jsx:113-116 | `parseInt` of a number keeps its integer part, truncated toward zero on both signs |
| Entities.LocaleCompare | components/Commissions.jsx:110-119 | `localeCompare` is negative, zero or positive exactly as the first string ranks before, with or after the second |
| Strings.LowerChar | components/Commissions.jsx:134 | a lower-cased character is never an upper-case letter, and only upper-case letters change |
| Strings.UpperChar | hooks/usePageTitle.js:8 | an upper-cased character is never a lower-case letter, and only lower-case letters change |
| Strings.Lower | components/Commissions.jsx:134 | `toLowerCase` keeps the length and lower-cases each character |
| Strings.LowerIdempotent | components/Commissions.jsx:134 | lower-casing twice is lower-casing once |
| Strings.ContainsAt | components/Commissions.jsx:134 | the search from a position finds the pattern exactly when it occurs at or after that position |
| Strings.Includes | components/Commissions.jsx:134 | `includes` holds exactly when the pattern occurs somewhere |
| Strings.EmptyIsContained | components/Commissions.jsx:134 | every text includes the empty text |
| Strings.ContainsItself | components/Commissions.jsx:134 | every text includes itself |
| Strings.ContainsChar | components/Sidebar/Sidebar.jsx:180 | a one-character pattern occurs exactly when that character is in the text |
| Strings.EmptySearchMatches | components/Commissions.jsx:134 | an empty search (`debouncedSearch \|\| ''`) matches every row |
| Strings.TrimStart | components/Products.jsx:230 | the leading white space is removed and nothing else; the result does not start with white space |
| Strings.TrimEnd | components/Products.jsx:230 | the trailing white space is removed and nothing else; the result does not end with white space |
| Strings.Trim | components/Products.jsx:230 | `trim` never lengthens, and gives the empty text exactly when the text is all white space |
| Strings.Repeat | components/Sidebar/Sidebar.jsx:212 | `'*'.repeat(n)` is n copies of the character |
| Strings.PadStart | utils/formatDate.js:4-5 | `padStart` leaves a long enough text alone, and otherwise pads on the left to the width, keeping the text at the end |
| Strings.DigitChar | utils/formatDate.js:4 | the character of a decimal digit is a digit with that value |
| Strings.NatToString | utils/formatDate.js:4 | `toString` of a whole number is at least one decimal digit; one digit exactly below 10, two from 10 to 99 |
| Strings.NatToStringRoundTrip | app/api/invoices/create-paypal/route.js:23 | reading the decimal digits of a number back gives the number |
| Strings.Pow10 | components/ManageButton/Commission.jsx:85-86 | 10^k exceeds k and, for k of at least 1, ends in a zero (the bound the digit rule is measured against) |
| Strings.FractionDigits | app/api/invoices/create-paypal/route.js:23 | the fraction digits written after the point are decimal digits, at most the given number of them |
| Strings.FractionDigitsValue | app/api/invoices/create-paypal/route.js:23 | the fraction digits read back are the fraction truncated to that many places, and exactly the fraction when fewer places than the limit were needed |
| Strings.WholeRealToString | app/api/invoices/create-paypal/route.js:23 | `price + ""` of a whole number is the integer's decimal text, with no point |
| Strings.FractionalRealToString | app/api/invoices/create-paypal/route.js:23 | `price + ""` gives "12.5" for 12.5 and "0.25" for 0.25 |
| Strings.IntToString | utils/formatDate.js:6 | `toString` of an integer is the digits of its magnitude, after "-" when negative |
| Strings.TakeLast | utils/formatDate.js:6 | `slice(-k)` is the last k characters, or the whole text when it is shorter |
| Strings.SplitOn | hooks/usePageTitle.js:10 | `split` always yields at least one piece |
| Strings.SplitAtSeparator | hooks/usePageTitle.js:10 | splitting a + separator + b gives the pieces of a followed by those of b |
| Strings.SplitPiecesAvoid | hooks/usePageTitle.js:10 | no piece contains the one-character separator |
| Strings.SplitOnAbsent | app/api/invoices/create-paypal/route.js:14 | a text without the separator splits into itself alone |
| Strings.SplitOnFirstPrefix | app/api/v1/create/request/route.js:21 | the first piece is a prefix of the text |
| Strings.SplitOnLeading | app/api/v1/create/request/route.js:21 | a text starting with the separator splits into an empty piece followed by the pieces of the rest |
| Strings.JoinConsHead | hooks/usePageTitle.js:15 | a character put in front of the first piece comes out in front of the joined text |
| Strings.ReplaceAllIsSplitJoin | components/NotificationWidget/NotificationWidget.jsx:32 | for a replacement without "$", `replaceAll` is splitting at every occurrence and joining with the replacement |
| Strings.Substitution | components/NotificationWidget/NotificationWidget.jsx:32 | the text put in place of a match is the replacement itself when it holds no "$" |
| Strings.ReplaceAllVerbatim | components/NotificationWidget/NotificationWidget.jsx:32 | without a "$" in the replacement, `replaceAll` inserts the replacement as written at every non-overlapping occurrence |
| Strings.ReplaceTextIsSplitJoin | components/NotificationWidget/NotificationWidget.jsx:32 | verbatim replacement at every occurrence is splitting at every occurrence and joining with the replacement |
| Strings.OccursShift | components/NotificationWidget/NotificationWidget.jsx:32 | an occurrence in the text after its first character is an occurrence one position later in the text |
| Strings.ReplaceAllAbsent | components/NotificationWidget/NotificationWidget.jsx:32 | a text without the pattern is unchanged by `replaceAll`, whatever the replacement holds |
| Strings.ReplaceAllLeading | components/NotificationWidget/NotificationWidget.jsx:32 | for a replacement without "$", a leading occurrence is replaced and the rest handled in turn |
| Strings.AfterLast | app/api/invoices/create-paypal/route.js:61 | `lastIndexOf(c) + 1`: the position just after the last c, or 0 when there is none |
| Strings.RemoveChar | app/api/invoices/create-paypal/route.js:131 | the result holds no c, is no longer, and is unchanged when the text holds no c |
| Strings.RemoveCharIsReplaceAll | app/api/invoices/create-paypal/route.js:131 | removing every c is `replaceAll(c, "")` |
| Strings.RemoveCharIsReplaceText | app/api/invoices/create-paypal/route.js:131 | removing every c is replacing every c by nothing |
| ListPipeline.Filter | components/Commissions.jsx:129-135 | `filter` never lengthens |
| ListPipeline.FilterMember | components/Commissions.jsx:129-135 | a row is kept exactly when it is in the input and passes the test |
| ListPipeline.FilterAgree | components/Commissions.jsx:129-135 | two tests that agree on every row keep the same rows |
| ListPipeline.FilterAppend | components/Commissions.jsx:129-135 | filtering distributes over concatenation |
| ListPipeline.SliceIndex | components/Commissions.jsx:178 | a JavaScript `slice` bound is clamped into 0..length, negatives counting from the end |
| ListPipeline.TotalPages | components/Commissions.jsx:179 | totalPages = ceil(n / 10): enough pages of ten for every row, and no empty last page |
| ListPipeline.PageAtMostTen | components/Commissions.jsx:178 | a page never holds more than 10 rows |
| ListPipeline.PageIsWindow | components/Commissions.jsx:178 | page p (p ≥ 1) is the rows from 10(p−1) up to 10p, clipped to the list |
| ListPipeline.PageNonEmptyIff | components/Commissions.jsx:178-179 | page p shows rows exactly when p ≤ totalPages |
| ListPipeline.PagesArePrefix | components/Commissions.jsx:178 | the first k pages together are the first 10k rows |
| ListPipeline.PagesCoverAll | components/Commissions.jsx:178-179 | the totalPages pages together are exactly the list |
| ListPipeline.Insert | components/Commissions.jsx:136 | inserting a row adds exactly one |
| ListPipeline.InsertPermutes | components/Commissions.jsx:136 | insertion adds the row and keeps the others (as a multiset) |
| ListPipeline.SortBy | components/Commissions.jsx:136 | sorting keeps the length |
| ListPipeline.SortByPermutes | components/Commissions.jsx:136 | sorting is a permutation |
| ListPipeline.SortByMember | components/Commissions.jsx:136 | a row is in the sorted list exactly when it is in the input |
| ListPipeline.InsertMembers | components/Commissions.jsx:136 | an inserted list holds only the new row and the old ones |
| ListPipeline.SortedCons | components/Commissions.jsx:136 | a row no greater than any of a sorted list can lead it |
| ListPipeline.InsertSorted | components/Commissions.jsx:136 | inserting into a sorted list keeps it sorted |
| ListPipeline.SortBySorted | components/Commissions.jsx:136 | the result is sorted by the comparator's key |
| ListPipeline.InsertWithKey | components/Commissions.jsx:136 | insertion puts the new row before the rows with its key |
| ListPipeline.SortByStable | components/Commissions.jsx:136 | the rows sharing a key keep their input order (`Array.prototype.sort` is stable) |
| ListPipeline.SortByKeepsTies | components/Commissions.jsx:136 | every group of rows with equal keys keeps its input order |
| ListPipeline.ConstantKeyKeepsOrder | components/Commissions.jsx:121-122 | a comparator that always answers 0 (an unknown sort field) leaves the order unchanged |
| ListPipeline.FilterSortSpec | components/Commissions.jsx:132-136 | filter then sort: exactly the matching rows, sorted by key, ties in input order, as a permutation of the filtered rows |
| ListPipeline.PinnedFirstSpec | components/Commissions.jsx:128-139 | the pinned rows come first in their original order and bypass the filter; after them come exactly the unpinned matching rows, sorted, ties in input order |
| ListPipeline.PinnedFirstFromInput | components/Commissions.jsx:128-139 | every listed row comes from the data |
| ListPipeline.PageFromList | components/Commissions.jsx:178 | every row on a page comes from the list |
| ListPipeline.Sign | components/Commissions.jsx:124 | the sign of a comparison: −1, 0 or 1, negative and positive exactly as the value is |
| ListPipeline.FindIndex | components/Commissions.jsx:224-262 | `findIndex`: the first row with the id, or −1 exactly when no row has it |
| ListPipeline.UpdateById | components/Commissions.jsx:260-270 | the first row with the id is replaced by its update, all other rows are unchanged; with no such row nothing changes |
| ListPipeline.RemoveById | components/Commissions.jsx:255-258 | removing by id never lengthens |
| ListPipeline.RemoveByIdMember | components/Commissions.jsx:256 | a row survives exactly when it was there and has another id |
| ListPipeline.RemoveAbsentId | components/Commissions.jsx:256 | removing an id no row has changes nothing |
| CommissionsPage.CompareIsKeyOrder | components/Commissions.jsx:102-125 | the comparator orders two rows as their sort keys do, so the sort is a sort by key |
| CommissionsPage.AmountsLargestFirst | components/Commissions.jsx:112-124 | for total_value the comparator is b − a on the `parseInt` amounts, so a larger amount comes first when ascending and last when descending (the order is negated) |
| CommissionsPage.FilterAndSortSpec | components/Commissions.jsx:128-139 | pinned rows come first in their original order and bypass every filter; then exactly the unpinned rows whose id, title or tracking_id contains the search (case-insensitive), whose client id equals the client filter when one is set, and whose status equals the status filter when one is set, sorted by the comparator |
| CommissionsPage.PageRowsComeFromData | components/Commissions.jsx:176-179 | every row on the visible page comes from the data |
| CommissionsPage.ApplyPatch | components/Commissions.jsx:260-270 | `{...row, ...payload}` keeps id, client and created_at; a pin payload changes only pinned; an edit payload sets its fields and keeps pinned |
| CommissionsPage.Page.constructor | components/Commissions.jsx:65-77 | the page starts empty on page 1, sorted by deadline ascending with no search or filters |
| CommissionsPage.Page.ApplyEffect | components/Commissions.jsx:176-180 | the visible page is the 10-row window of page `page` of the filtered and sorted data, totalPages = ceil(n/10), and the data, page and controls are unchanged |
| CommissionsPage.Page.HandleUpdate | components/Commissions.jsx:218-221 | the new row followed by the current page becomes all the data |
| CommissionsPage.Page.HandleStatusRefresh | components/Commissions.jsx:223-230 | when the id is on the current page, all the data becomes the current page with that row's status changed, so rows on other pages are dropped; otherwise nothing changes |
| CommissionsPage.Page.HandlePaidRefresh | components/Commissions.jsx:236-253 | when the id is on the current page, all the data becomes that page with the row's total_paid = total_value · pct / 100, and that value is the one written to the store; otherwise nothing changes and nothing is written |
| CommissionsPage.Page.HandleDeleteRefresh | components/Commissions.jsx:255-258 | the id is removed from the visible page only |
| CommissionsPage.Page.HandleEditRefresh | components/Commissions.jsx:260-270 | the payload is merged into the row with that id, the other rows are unchanged, and nothing changes when the id is absent |
| CommissionsPage.Page.HandlePinRefresh | components/Commissions.jsx:232-234 | a pin refresh is an edit refresh with only the pinned flag |
| CommissionsPage.PaidShare | components/Commissions.jsx:241 | only total_paid changes, and total_paid · 100 = total_value · pct |
| CommissionsPage.PaidShareBounded | components/Commissions.jsx:241 | for a percentage in 0..100 the paid amount lies between 0 and total_value, and equals it at 100 |
| InvoicesPage.CompareIsKeyOrder | components/Invoices.jsx:112-138 | the comparator orders two rows as their sort keys do |
| InvoicesPage.PaidAtSortsByDueDate | components/Invoices.jsx:128-130 | sorting by "paid_at" compares due_date exactly as sorting by "due_date" does, and never looks at paid_at |
| InvoicesPage.DescendingNegates | components/Invoices.jsx:137 | "descending" negates the ascending comparison |
| InvoicesPage.FilterAndSortSpec | components/Invoices.jsx:141-152 | pinned rows come first in their original order and unfiltered; then exactly the unpinned rows whose id, title or client username contains the search and that pass both filters, sorted |
| InvoicesPage.ApplyPatch | components/Invoices.jsx:226-236 | a merge keeps id, title, client, amount, created_at and due_date; a pin payload changes pinned only; a paid payload sets status "paid" and paid_at when given |
| InvoicesPage.Page.constructor | components/Invoices.jsx:65-77 | the page starts empty on page 1, sorted by created_at ascending with no search or filters |
| InvoicesPage.Page.ApplyEffect | components/Invoices.jsx:180-184 | the visible page is a 10-row window of the filtered and sorted data and totalPages = ceil(n/10) |
| InvoicesPage.Page.HandleUpdate | components/Invoices.jsx:212-215 | all the data becomes the new row prepended to the current page |
| InvoicesPage.Page.HandleDeleteRefresh | components/Invoices.jsx:221-224 | the id is removed from the visible page only |
| InvoicesPage.Page.HandleEditRefresh | components/Invoices.jsx:226-236 | the payload is merged into the row with that id only |
| InvoicesPage.Page.HandlePinRefresh | components/Invoices.jsx:217-219 | a pin refresh is an edit refresh with only the pinned flag |
| QuotesPage.CompareIsKeyOrder | components/Quotes.jsx:138-161 | the comparator orders two quotes as their sort keys do (start_date, deadline, client name rank, proposed amount or status rank, negated when descending), so the sort is a sort by key |
| QuotesPage.AmountsLargestFirst | components/Quotes.jsx:151-152 | for proposed_amount the comparator is b − a on the `parseInt` amounts, so the larger amount comes first when ascending and last when descending |
| QuotesPage.FilterAndSortSpec | components/Quotes.jsx:103-113 | exactly the quotes whose id, title or client username contains the search (case-insensitive), whose client id equals the client filter when one is set and whose status equals the status filter when one is set survive; they are sorted by key, keep their original order among equal keys and are a permutation of the filtered rows |
| QuotesPage.Cleared | components/Quotes.jsx:178-183 | clearing empties the search and both filters and resets the sort to start_date ascending |
| QuotesPage.ClearedKeepsEverything | components/Quotes.jsx:178-183 | after clearing, every quote passes the filter: the list holds exactly the data's rows |
| QuotesPage.ApplyPatch | components/Quotes.jsx:215-223 | `{...row, ...payload}` keeps the id and takes title, amount, client, dates, payment terms and status from the payload |
| QuotesPage.Page.constructor | components/Quotes.jsx:63-75 | the page starts with no data on the requested page, sorted by start_date ascending with no search or filters |
| QuotesPage.Page.ApplyEffect | components/Quotes.jsx:129-131 | the visible page is the 10-row window of page `page` of the filtered and sorted data and totalPages = ceil(n/10); the data, page and controls are unchanged |
| QuotesPage.Page.HandleClearFilters | components/Quotes.jsx:178-183 | the controls become the cleared view and the data and visible page are untouched until the effect re-runs |
| QuotesPage.Page.HandleUpdate | components/Quotes.jsx:196-199 | the visible page becomes the new quote followed by the current page, filtered and sorted |
| QuotesPage.Page.HandleStatusRefresh | components/Quotes.jsx:201-208 | when the id is on the visible page, that row's status is changed and the page is re-filtered and re-sorted, and since the copy is shallow the same row in all the data gets the status too when the page took it from there; otherwise nothing changes |
| QuotesPage.StatusRefreshShowsPageRows | components/Quotes.jsx:201-208 | after a status refresh, every visible row was already on the page or is the row with its new status |
| QuotesPage.Page.HandleDeleteRefresh | components/Quotes.jsx:210-213 | the id is removed from the visible page only; all the data is kept |
| QuotesPage.Page.HandleEditRefresh | components/Quotes.jsx:215-223 | the payload is merged into the data's row with that id, the other rows are unchanged, and nothing changes when the id is absent |
| RequestsPage.CompareIsKeyOrder | components/Requests.jsx:163-183 | the comparator orders two change requests as their sort keys do (deadline, client id rank, offered amount or status rank, negated when descending) |
| RequestsPage.CommissionSortsByClient | components/Requests.jsx:170-171 | sorting by "commission" compares the commission's client id, so two requests for the same client compare equal whatever their commission titles |
| RequestsPage.EffectListSpec | components/Requests.jsx:141-151 | the effect keeps exactly the requests whose commission title equals the commission filter ignoring case when one is set, whose status equals the status filter when one is set and whose id, description or commission title contains the search ignoring case, sorted by key |
| RequestsPage.CommissionFilterIgnoresCase | components/Requests.jsx:145 | a commission filter and its lower-cased form select the same requests |
| RequestsPage.FilterAndSortSpec | components/Requests.jsx:107-115 | the refresh helper applies only the search (id, description or commission title, ignoring case) and no commission or status filter, then sorts by key |
| RequestsPage.ApplyPatch | components/Requests.jsx:227-235 | `{...row, ...payload}` keeps id and commission and takes description, amount, deadline, paid and status from the payload |
| RequestsPage.Page.constructor | components/Requests.jsx:60-72 | the page starts with no data on the requested page, sorted by deadline ascending with no search or filters |
| RequestsPage.Page.ApplyEffect | components/Requests.jsx:153-154 | the visible page is the 10-row window of page `page` of the effect's list and totalPages = ceil(n/10); data, page and controls are unchanged |
| RequestsPage.Page.HandleStatusRefresh | components/Requests.jsx:200-207 | when the id is on the visible page its status is changed and the page is re-run through the search-only helper, and since the copy is shallow the same row in all the data gets the status too when the page took it from there; otherwise nothing changes |
| RequestsPage.Page.HandleDeleteRefresh | components/Requests.jsx:221-225 | the id is removed from both all the data and the visible page |
| RequestsPage.DeleteLeavesNoRow | components/Requests.jsx:221-225 | a row left after a delete has another id and was already there |
| RequestsPage.Page.HandleEditRefresh | components/Requests.jsx:227-235 | the payload is merged into the visible page's row with that id; all the data is unchanged |
| RequestsPage.Page.HandleMarkAsPaidRefresh | components/Requests.jsx:237-248 | the data's row with that id gets paid = true; the visible page is unchanged |
| RequestsPage.MarkAsPaidOnlyPaid | components/Requests.jsx:237-248 | marking as paid keeps the length and changes no row except the one with that id, and that one only in its paid flag |
| RequestsPage.Page.HandleUpdate | components/Requests.jsx:250-253 | the visible page becomes the new request followed by the current page, through the search-only helper |
| ClientsPage.RevenueFromIsSum | components/Clients.jsx:91 | the `reduce` fold of total_paid from an accumulator equals the accumulator plus the sum of the commissions' total_paid |
| ClientsPage.RevenueAppend | components/Clients.jsx:91 | revenue is additive over concatenated commission lists |
| ClientsPage.RevenueNonNegative | components/Clients.jsx:91 | when no commission has a negative total_paid the revenue is not negative |
| ClientsPage.Enhance | components/Clients.jsx:88-92 | a client keeps its fields and gains total_commissions = number of its commissions and total_revenue = sum of their total_paid |
| ClientsPage.EnhanceAll | components/Clients.jsx:88-92 | enhancing keeps the number and the order of the clients and enhances each one |
| ClientsPage.CompareIsKeyOrder | components/Clients.jsx:157-180 | the comparator orders two clients as their sort keys do (username or discord rank, commission count, revenue, created_at, negated when descending) |
| ClientsPage.RevenueLargestFirst | components/Clients.jsx:170-171 | for total_revenue the comparator is b − a, so the larger revenue comes first when ascending and last when descending |
| ClientsPage.FilterAndSortSpec | components/Clients.jsx:132-141 | exactly the clients whose id, username, email or discord contains the search ignoring case survive, sorted by key |
| ClientsPage.ApplyPatch | components/Clients.jsx:213-221 | `{...row, ...payload}` keeps id, created_at, the commissions and both totals, and takes username, discord, email and avatar from the payload |
| ClientsPage.Page.constructor | components/Clients.jsx:51-60 | the page starts with no data on page 1, sorted by username ascending with no search |
| ClientsPage.Page.Load | components/Clients.jsx:88-94 | all the data becomes the enhanced clients; the visible page, page and controls are unchanged |
| ClientsPage.Page.ApplyEffect | components/Clients.jsx:143-144 | the visible page is the 10-row window of page `page` of the filtered and sorted clients and totalPages = ceil(n/10) |
| ClientsPage.Page.HandleUpdate | components/Clients.jsx:204-206 | the new client is prepended to the visible page as is, neither filtered nor sorted |
| ClientsPage.Page.HandleDeleteRefresh | components/Clients.jsx:208-211 | the id is removed from the visible page only |
| ClientsPage.Page.HandleEditRefresh | components/Clients.jsx:213-221 | the payload is merged into the data's row with that id, the other rows are unchanged, and nothing changes when the id is absent |
| Settings.GetStrength | components/Settings.jsx:340-350 | the loop over the requirements returns the strength: 100 − 25 · (1 if the password has at most 5 characters, plus one per unmet requirement), floored at 0 |
| Settings.UnmetAll | components/Settings.jsx:41-45 | the unmet count over the three requirements is one for each of digit, lower-case letter and upper-case letter that does not occur |
| Settings.StrengthLevels | components/Settings.jsx:340-350 | the strength is one of 0, 25, 50, 75, 100; it is 100 exactly when the password is longer than 5 and meets all three requirements, and 0 exactly when it is at most 5 long and meets none |
| Settings.BarLit | components/Settings.jsx:67-74 | bar `index` is full exactly when it is the first bar of a non-empty password or the strength reaches 25 · (index + 1); otherwise it is empty |
| Settings.BarsFillFromLeft | components/Settings.jsx:67-74 | when a bar is full every bar to its left is full |
| Settings.EmptyPasswordLightsNothing | components/Settings.jsx:73 | an empty password lights no bar |
| Settings.ColorReadsStrength | components/Settings.jsx:75 | the bars are teal exactly at strength 100 and yellow exactly at 75 |
| Settings.DetailsRules | components/Settings.jsx:53-58 | the display name is accepted exactly when it is not blank and at most 50 long, a blank name gets "Name is required", and the discord handle is accepted exactly when it is at most 20 long |
| Settings.SettingsPanel.constructor | components/Settings.jsx:94-128 | the panel starts from the loaded terms, details and password with no toast |
| Settings.SettingsPanel.SaveTerms | components/Settings.jsx:130-158 | terms longer than 500 characters are refused with the limit toast; otherwise a failed write keeps the old terms with the error toast and a good one stores the HTML with the saved toast; nothing else changes |
| Settings.SettingsPanel.SaveDetailsAsWritten | components/Settings.jsx:160-201 | as written: an invalid form changes nothing; a failed write keeps the details; a good one stores the form but sets the context without the currency prefix |
| Settings.PrefixLostAfterSave | components/Settings.jsx:190 | a valid form saved with prefix "€" is stored with "€" while the context as written holds no prefix |
| Settings.SettingsPanel.SaveDetails | components/Settings.jsx:160-201 | an invalid form changes nothing; a failed write keeps the details with the error toast; a good one stores the form and the context equals what was stored |
| Settings.SettingsPanel.CommitDetails | components/Settings.jsx:166-200 | after validation, a failed write changes only the toast; a good one stores the form and sets the context |
| Settings.SettingsPanel.UpdatePassword | components/Settings.jsx:203-231 | the demo account is told the password was updated and nothing changes; any other account gets the weak-password toast below strength 100; at 100 a failed update keeps the password and a good one sets it; terms and details never change |
| Settings.ChangedPasswordIsStrong | components/Settings.jsx:203-231 | whenever an update changes the password, the new one is longer than 5 and contains a digit, a lower-case and an upper-case letter |
| Products.DescriptionRule | components/Products.jsx:230 | a product description is accepted exactly when it is not blank and 4 to 35 characters long, and a blank one gets "Description is required!" |
| Products.OwnNameIsTaken | components/Products.jsx:70 | a name that equals an existing description ignoring case counts as taken, the product's own description included |
| Products.Rename | components/Products.jsx:81-86 | renaming keeps the length and changes exactly the row with that id to the new description |
| Products.RenameKeepsKey | components/Products.jsx:81-86 | a rename keeps every id naming a single row |
| Products.DropIsDeleteById | components/Products.jsx:61-64 | dropping the product object from the list is the same as deleting its id, and keeps ids naming single rows |
| Products.ProductsPage.constructor | components/Products.jsx:13-33 | the page starts with the loaded products, the create modal closed, nothing being edited and no toast |
| Products.ProductsPage.ClickNewProduct | components/Products.jsx:112 | the new-product tile toggles the create modal only while fewer than 20 products are shown |
| Products.ProductsPage.CreateProduct | components/Products.jsx:35-59 | with the modal closed nothing happens; otherwise it closes, a name taken ignoring case is refused with the duplicate toast, a failed insert keeps the list, and a good one appends the new row; the list never grows past 20 |
| Products.ProductsPage.SubmitCreate | components/Products.jsx:241-252 | a description that breaks the rule changes nothing; any change to the list is the valid description appended |
| Products.ProductsPage.EditProduct | components/Products.jsx:66-93 | the same or a blank name changes nothing; a name taken ignoring case is refused with the duplicate toast; otherwise the edit closes and a good update renames that id only with the "You have updated" toast |
| Products.ProductsPage.CommitRename | components/Products.jsx:70-92 | after the same-name and blank checks, a taken name is refused and otherwise that id is renamed when the update succeeds |
| Products.ProductsPage.SaveRename | components/Products.jsx:155-159 | the rename form applies the description rule first, so a refused name changes nothing and a renamed row obeys the rule |
| Products.CaseOnlyRenameRefused | components/Products.jsx:66-75 | renaming "Logo" to "logo" is refused as a duplicate because the product's own name is compared ignoring case |
| Products.ProductsPage.DeleteProduct | components/Products.jsx:141-153 | a failed delete keeps the list with the error toast; a good one removes that id from the table and the product from the list, with the "You have deleted" toast |
| CommissionMenu.DigitCount | components/ManageButton/Commission.jsx:85-86 | a number's decimal text has at most k digits exactly when the number is below 10^k |
| CommissionMenu.WholeAmountRule | components/ManageButton/Commission.jsx:85-86 | the text of a whole amount passes `^[0-9]{1,8}$` exactly when the amount is below 100 000 000 |
| CommissionMenu.NotesRule | components/ManageButton/Commission.jsx:87 | notes are accepted exactly when they are at most 1500 characters long, empty notes included |
| CommissionMenu.ProductById | components/ManageButton/Commission.jsx:122 | `products.find` returns a product of the list with the selected id, and nothing only when no id is selected or no product has it |
| CommissionMenu.PaidAmounts | components/ManageButton/Commission.jsx:137-181 | marking as paid acts exactly for 10, 25, 50, 75 and 100 percent, and only 100 is worded "fully" |
| CommissionMenu.Menu.constructor | components/ManageButton/Commission.jsx:57-89 | the menu for a commission starts with no writes, no refreshes, no toast and the edit modal closed |
| CommissionMenu.Menu.MarkAsPaid | components/ManageButton/Commission.jsx:137-181 | for a listed percentage the page gets one paid refresh and the "marked as … paid" toast; any other amount does nothing; the store is never written here |
| CommissionMenu.Menu.Pin | components/ManageButton/Commission.jsx:183-203 | the store is written with the flipped pinned flag; a failed write shows the error toast only; a good one sends one pin refresh and says "pinned" or "unpinned" by the new flag |
| CommissionMenu.PinTwice | components/ManageButton/Commission.jsx:183-187 | a menu built for the refreshed commission writes the flag back, so two pins restore the original pinned value |
| CommissionMenu.Menu.EditSave | components/ManageButton/Commission.jsx:103-129 | the store is written with the form's fields and the editor's HTML as notes; on success the page gets the form, the notes and the product found by id, with the "has been edited" toast; the modal always closes |
| CommissionMenu.EditSkipsRules | components/ManageButton/Commission.jsx:83-113 | the save does not run the form's validators: a one-character title, which the title rule refuses, is still written |
| RequestModal.FindIndexAppend | components/CreateModal/Requests.jsx:76-83 | appending a row does not move an id already found, and an absent id that the new row carries is found at the end |
| RequestModal.UniqueCoversIds | components/CreateModal/Requests.jsx:76-83 | every id among the commissions appears in the de-duplicated list |
| RequestModal.AbsentFromUnique | components/CreateModal/Requests.jsx:76-83 | an id missing from the de-duplicated list is missing from the commissions |
| RequestModal.AppendedRowKeepsFirst | components/CreateModal/Requests.jsx:77-81 | a row whose id is already kept leaves the kept rows the first occurrences, in order |
| RequestModal.NewRowJoins | components/CreateModal/Requests.jsx:78-79 | a row with a new id joins the kept rows as its id's first occurrence |
| RequestModal.UniqueFirstRows | components/CreateModal/Requests.jsx:76-83 | the `reduce` keeps, for each id, exactly its first row, in the order of first occurrence |
| RequestModal.UniqueCommissionsSpec | components/CreateModal/Requests.jsx:76-83 | the de-duplicated list holds the first row of every id, in order of first occurrence, and covers every id |
| RequestModal.EachIdOnce | components/CreateModal/Requests.jsx:76-83 | every id appears in the de-duplicated list exactly once |
| RequestModal.Selected | components/CreateModal/Requests.jsx:85 | the selected commission is one of the list whose title equals the form's, and there is none exactly when no title matches |
| RequestModal.SelectedIsFirst | components/CreateModal/Requests.jsx:85 | the selected commission is the first one with that title |
| RequestModal.Modal.constructor | components/CreateModal/Requests.jsx:32-42 | the form starts with an empty description, amount 0, no commission, deadline now and status not_started; nothing is stored |
| RequestModal.Modal.Create | components/CreateModal/Requests.jsx:44-74 | a description outside 3 to 30 characters (no line break) changes nothing; with no matching commission the handler throws and nothing changes; otherwise the modal toggles and the form resets, a failed insert shows the error toast, and a good one stores the row and hands the page the new request with the commission's title and avatar |
| InvoiceModal.NoErrorsIffValid | components/CreateModal/Invoices.jsx:34-39 | the form has no errors exactly when a client is chosen, the title is 3 to 50 long, the memo at most 500 and the amount between 1 and 1 000 000 |
| InvoiceModal.InitialFormRefused | components/CreateModal/Invoices.jsx:27-40 | the untouched form fails on client, title and amount, in that order, and its due date is 30 days after now |
| InvoiceModal.Endpoint | components/CreateModal/Invoices.jsx:48-50 | Stripe posts to /api/invoices/create and every other provider to /api/invoices/create-paypal |
| InvoiceModal.SelectedClient | components/CreateModal/Invoices.jsx:93 | the client sent is one of the list with the chosen id, and none only when no id is chosen or no client has it |
| InvoiceModal.RefusedFormSendsNothing | components/CreateModal/Invoices.jsx:42-45 | a form with errors records them and changes nothing else: nothing is posted |
| InvoiceModal.ValidFormPostedOnce | components/CreateModal/Invoices.jsx:46-64 | a valid form is posted exactly once, to the provider's endpoint, with the form's values and the selected client |
| InvoiceModal.OnlyOkReachesPage | components/CreateModal/Invoices.jsx:66-87 | only an ok reply hands the page the new invoice with the selected client and shows the success toast; a failed one shows a red toast carrying the reply's message when it has one |
| InvoiceModal.SentFormResets | components/CreateModal/Invoices.jsx:88-90 | after a send the modal toggles, the form returns to its initial values, loading is off and the provider is kept |
| InvoiceModal.Modal.constructor | components/CreateModal/Invoices.jsx:22-40 | the modal starts on Stripe with the initial form, no errors, nothing posted and no toast |
| InvoiceModal.Modal.Create | components/CreateModal/Invoices.jsx:42-91 | the modal's new state is the validation-then-send outcome of its old state |
| InvoiceModal.Modal.Send | components/CreateModal/Invoices.jsx:46-90 | the modal's new state is the send outcome: one post, the reply's toast and update, then the reset |
| InvoiceModal.UntouchedFormSendsNothing | components/CreateModal/Invoices.jsx:27-45 | creating from the untouched form posts nothing |

## Left out

- Rendering is not modelled: JSX/Mantine markup, charts, badges, confetti and theming. Only the values handed to the renderers are.
- URL and history sync is not modelled: the `URLSearchParams`/`replaceState` effects of the list pages, CSV export and clipboard writes are browser I/O.
- Sessions and authentication are not modelled. The signed-in tenant is a parameter, and a missing session, which makes the routes throw on `user.id`, is not modelled.
- The database query language is not modelled. Each table is a map or sequence in `Store.Db`, and a failing call is chosen by the `fails` parameter. `.single()` turning "no row" into an error is one of the outcomes that parameter can select.
- Stripe and PayPal are not modelled beyond the calls the routes make. They are classes answering from fixed tables, and a provider call that throws is not modelled.
- Base64 encoding of the PayPal credentials is not modelled: the `Basic` credentials are the unencoded "id:secret" text. `stripHtml` and the ISO text `toISOString` gives an in-range instant are function parameters; the calendar arithmetic behind that text is not modelled.
- PayPalInvoice.DueDay: a due date is a number of milliseconds or absent; a `null` due date, which `new Date` reads as the epoch, and date strings are not modelled.
- Strings.RealToString: the exponent notation JavaScript uses for numbers from 10^21 and below 10^-6 is not modelled, and a fraction that does not end within twenty places is cut there instead of being rounded to the nearest double.
- StripeInvoice.Cents: the product is exact, so the binary rounding of `amount * 100` (0.29 giving 28.999999999999996) and Stripe refusing a non-integer amount are not modelled.
- Strings.ReplaceAllIsSplitJoin: stated for a replacement without "$" only, since `replaceAll` expands "$$", "$&", "$`" and "$'"; Strings.ReplaceAll models the expansion and NotificationWidget.DollarPatternsInUsername shows it.
- Strings.ReplaceAllLeading: stated for a replacement without "$" only, for the same reason.
- NotificationWidget.DisplayedIsSplitJoin: stated for a username without "$" only, for the same reason.
- NotificationWidget.LeadingPlaceholder: stated for a username without "$" only, for the same reason.
- QuotesPage.Page.HandleStatusRefresh and RequestsPage.Page.HandleStatusRefresh model object identity by value: a row on the page counts as the object in all the data when an equal row is there, and ids are keys, so the first row with the id is that object.
- CommissionsPage.Page.HandlePaidRefresh: the red "Error when updating row in database" notification shown when the store update fails is not modelled; the page state is the same either way.
- Clocks are parameters: `Date.now()` and `new Date()` become a `now` argument. Timezone and daylight-saving behaviour of `Date` is not modelled; a day is 86 400 000 ms.
- Timing is not modelled: the 1 s wait in the PayPal route, the `setTimeout` delays in the forms and settings saves, and the shared-promise caches of the products and clients hooks. Handlers run one at a time, so the races between a guard and its write (quote status, API quota) are not modelled.
- `localeCompare` and parsing dates from strings are an abstract `collate` rank, and `toLocaleString` month and weekday labels are left out. WeekData rows carry their weekday index instead of the label.
- Floating-point rounding is not modelled. Sums of JavaScript numbers (revenue, totals, owed amounts) are exact `real` arithmetic, and the `progress` percentage of the unpaid-commissions widget is left out.
- Amounts that are strings in the source are modelled through their value only. `parseInt` on an amount is `Entities.Trunc` of a real, and `new Date(amount)` in the invoices comparator is the amount itself, since a number converts to that many milliseconds.
- Object key order is not modelled in full. JavaScript puts integer-like keys first; the tallies keep keys in insertion order, which is exact for product descriptions that are not integer-like.
- Case folding is ASCII only: `toLowerCase`/`toUpperCase` of non-ASCII letters are not modelled. `trim` removes space, tab, line breaks, vertical tab, form feed and no-break space, but not the other Unicode space characters.
- The loading flags of the forms and settings panel are not modelled, because they are only set and cleared around a call. `console.error`/`console.log` output is not modelled either.
- WeekData.GetWeekData and MonthlyRevenue.CalculateMonthlyRevenue hold their bucket arrays as sequence values that the loop reassigns. The in-place update of one JavaScript object in the array becomes a sequence update.
- RequestsPage and ClientsPage `handleClearFilters` (components/Requests.jsx:209-219, components/Clients.jsx:189-202) are not modelled. They only reset the search and filter controls and the URL, as QuotesPage.Cleared shows for the quotes page.
- The commission menu's `handleDelete` (components/ManageButton/Commission.jsx:131-135) is not modelled. It calls the delete helper and the page's delete refresh, which is CommissionsPage.Page.HandleDeleteRefresh.
- The invoice check routes, the forms that are a declaration plus a single write (create and manage modals for commissions, quotes, clients, invoices and requests), and the tracking and quote pages are not modelled, because they are single-call glue.
- The fetch effects that load each page's rows are not modelled, apart from the client enhancement (ClientsPage.Page.Load). The fetched rows are the starting state of each page class.
- `hasLength` and `isInRange` in the invoice form are read as a length bound on the trimmed text and a closed range on the number.

## Findings

| source | as written | input that shows it | evidently intended | confidence | as-written member | corrected member |
|---|---|---|---|---|---|---|
| app/api/v1/select/client/route.js:7 | `const { searchBy, searchValue } = req.nextUrl.searchParams` destructures a `URLSearchParams` object, which has no such properties, so both are undefined and the select is filtered on an undefined column | a valid key with `?searchBy=email&searchValue=a@b.c` for a client of that tenant: the intended select returns the row, the route as written returns 500 after spending one use | read both with `searchParams.get(...)` | high (not executed) | ApiKeys.SelectClientAsWritten | ApiKeys.SelectClient |
| app/api/invoices/create-paypal/route.js:110 | `const { terms, logo, display_name } = settings` runs even when `settings` is null, which is the path where the environment credentials were chosen | a tenant with no settings row while PAYPAL_CLIENT_ID and PAYPAL_CLIENT_SECRET are set: the credentials check passes and the destructuring throws, so the route fails with an unhandled error | fall back to empty terms, logo and display name | high (not executed) | PayPalInvoice.CreatePayPalInvoiceAsWritten | PayPalInvoice.CreatePayPalInvoice |
| components/Settings.jsx:190 | the context update reads `detailsForm.values.currency_prefix`, but the form keeps the prefix under `values.settings.currency_prefix`, which is what is stored | saving valid details with currency prefix "€": the store holds "€" and the user context holds no prefix until the next load | copy `detailsForm.values.settings.currency_prefix` | high (not executed) | Settings.SettingsPanel.SaveDetailsAsWritten | Settings.SettingsPanel.SaveDetails |
