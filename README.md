# Event booking site: a verified model of the booking store and the dashboard rules

The site sells event packages (birthdays, DJ nights, weddings, ...). Visitors
submit booking requests; an administrator logs in, reviews the bookings,
confirms, rejects or deletes them, and watches the list of *busy dates*, the
days on which some booking is confirmed. This project models two parts.

* **The server's booking store** (`app.py`) becomes the class
  `Store.BookingStore`. It holds the `bookings` table as a map from booking
  id to record and the `busy_dates` table as a set of dates, plus the login
  session. The `event_packages` and `users` tables are read-only maps. Each
  handler of the core is one method, with its status codes and messages.
  The central invariant is `BusyConsistent`: the busy set equals the set of
  preferred dates of the confirmed bookings. It is proved preserved by
  creation, status update, deletion and clear-all. The `ORDER BY` clauses
  are modelled as "some enumeration in key order" (module `Ordering`),
  because SQL leaves ties open.
* **The browser code** (`static/js/script.js`) becomes three modules:
  * `Client` holds the decision rules as functions: package classification
    by first keyword match, the status badge class, the action buttons, the
    "what's included" list, the price label, and the outcome of each
    form submit or admin action. A `fetch` answer is an input value
    (thrown, or an ok flag plus an optional message), and so is the user's
    answer to a `confirm()` dialog.
  * `Render` holds the three render functions as methods that clear a
    `Container` and append one element record per entry.
  * `Dashboard` holds the tab switch as a class over the links' `active`
    flags and the sections' inline display.

The module `Interface` proves that the two sides agree:
* the stats keys are exactly the fields the dashboard reads;
* the clear-all body passes the server's confirmation check;
* the statuses the buttons send pass the server's whitelist;
* the bookings filter selects what the dashboard asks for.

Text and ordering helpers sit in `Text`, `Values` and `Ordering`. Dates are
ISO strings ("YYYY-MM-DD"), compared lexicographically, which for such
strings is the chronological order.

## Model

| member | source | states |
|---|---|---|
| Values.Truthy | app.py:100 | a request value is falsy exactly when it is None, False, 0 or the empty string |
| Values.Get | app.py:100 | `data.get(key)` is the stored value when the key is present and None otherwise |
| Text.LowerChar | static/js/script.js:24 | only A-Z change, each to its lower-case letter; the result is never upper-case |
| Text.Lower | static/js/script.js:24 | ASCII lower-casing keeps the length and lower-cases every character in place |
| Text.LowerSlice | static/js/script.js:24 | lower-casing commutes with taking a slice |
| Text.LowerOfLower | static/js/script.js:24 | a string without upper-case letters is its own lower-case |
| Text.Contains | static/js/script.js:25 | `includes` can hold only when the keyword is no longer than the name |
| Text.ContainsLower | static/js/script.js:24-25 | if a keyword occurs in a name, its lower-case occurs in the lower-cased name |
| Text.ReplaceChar | app.py:193 | `replace(' ', '_')` replaces every occurrence and keeps everything else |
| Text.BeforeIrreflexive | app.py:398 | the date order is strict: no date comes before itself |
| Text.BeforeTransitive | app.py:398 | the date order is transitive |
| Text.BeforeTotal | app.py:398 | of two different dates one comes first |
| Text.BeforeAsymmetric | app.py:398 | no two dates each come before the other |
| Text.SplitComma | static/js/script.js:71 | `split(',')` always yields at least one piece |
| Text.SplitCommaCount | static/js/script.js:71 | `split(',')` yields one piece more than there are commas |
| Text.SplitCommaPiecesCommaFree | static/js/script.js:71 | no piece of the split holds a comma |
| Text.SplitCommaRoundTrip | static/js/script.js:71 | joining the pieces with commas gives back the original string |
| Text.IsSpace | static/js/script.js:72 | the characters `trim` removes are the ECMAScript whitespace and line terminators; no comma, letter or digit is among them |
| Text.TrimStart | static/js/script.js:72 | cuts exactly the leading whitespace: the rest is a suffix whose first character is not space |
| Text.TrimEnd | static/js/script.js:72 | cuts exactly the trailing whitespace: the rest is a prefix whose last character is not space |
| Text.Trim | static/js/script.js:72 | `trim()` never lengthens, and the result neither starts nor ends with whitespace |
| Text.TrimIsMiddle | static/js/script.js:72 | `trim()` keeps a slice of its input and cuts only whitespace on either side |
| Ordering.FirstByKeyExists | app.py:227 | a non-empty set of rows has one that may come first in key order |
| Ordering.TakeFirstByKey | app.py:227 | appending a row that may come first keeps the enumeration sorted and without repeats |
| Ordering.OrderByKey | app.py:227 | `ORDER BY key ASC/DESC`: the result lists every row once and in key order |
| Ordering.EarliestExists | app.py:398 | a non-empty set of dates has an earliest one |
| Ordering.TakeEarliest | app.py:398 | appending the earliest remaining date keeps the enumeration ascending |
| Ordering.OrderDates | app.py:398 | `ORDER BY date ASC`: every busy date once, strictly ascending, as many as there are dates |
| Ordering.DistinctOfAscending | app.py:398 | a strictly ascending list repeats nothing |
| Ordering.DistinctCardinality | app.py:398 | a list without repeats has as many elements as its set |
| Store.ParseStatus | app.py:265 | a status is accepted iff it is one of the three texts, and it then names its own status |
| Store.AllPresent | app.py:100 | `all(data.get(f) for f in fields)` holds iff every field is present with a truthy value |
| Store.IsAdminSession | app.py:37 | an admin session holds a `user_id` and a `role` equal to "admin"; a missing role is not admin |
| Store.ClearConfirmed | app.py:433 | clearing proceeds exactly when the body has a truthy `confirm_clear`; an absent or empty body is refused |
| Store.HasRequiredFields | app.py:99-101 | the check passes iff package_id, full_name, phone_number, email_address, preferred_date and location are all present and truthy |
| Store.CheckStatusRequest | app.py:259-267 | a null or empty body or one without "status" is refused first, then a status outside the whitelist; otherwise the body's status is the new one |
| Store.ConfirmedOn | app.py:313-317 | the bookings counted as remaining on a date are exactly the confirmed ones with that preferred date |
| Store.BusyAfterUpdate | app.py:294-326 | only the booking's date can change in the busy table; it is busy afterwards iff the new status is Confirmed, or it was busy and the booking was not leaving Confirmed or a confirmed booking remains on it |
| Store.BusyAfterDelete | app.py:359-376 | deleting never adds a busy date and only the booking's date can go; it stays iff it was busy and the booking was not confirmed or another confirmed booking remains on it |
| Store.ConfirmedOnEmpty | app.py:317-320 | no confirmed booking remains on a date iff it is not among the confirmed dates |
| Store.UpdateKeepsBusyConsistent | app.py:285-326 | if the busy set equals the confirmed dates before a status update, it still does after the upsert or the conditional delete |
| Store.DeleteKeepsBusyConsistent | app.py:353-376 | if the busy set equals the confirmed dates before a delete, it still does after the conditional cleanup |
| Store.InsertKeepsConfirmedDates | app.py:109-122 | inserting a booking that is not confirmed under a fresh id leaves the confirmed dates unchanged |
| Store.ReconfirmIdempotent | app.py:285-303 | confirming sets the status and makes the date busy; confirming again changes neither table |
| Store.LeavingConfirmedFreesDate | app.py:308-326 | when a booking leaves Confirmed, its date is removed iff no confirmed booking remains on it; no other date changes |
| Store.StatsKey | app.py:193 | the key has the status's length, no upper-case letter and no space, and each space became an underscore |
| Store.StatsKeys | app.py:193 | `status.lower().replace(' ', '_')` gives pending_review, confirmed and rejected |
| Store.StatusKeysDistinct | app.py:187-194 | the four stats keys are pairwise different, so no counter overwrites another |
| Store.StatsKeyAt | app.py:190-193 | the key computed for the i-th visited status is the i-th status key |
| Store.StatsStep | app.py:190-194 | storing the i-th status count under its key keeps the earlier counters and adds exactly that key |
| Store.StatsDone | app.py:186-194 | after the three statuses the body has exactly the four keys with the total and each status count |
| Store.StatsPartition | app.py:186-194 | the three status counters add up to total_bookings |
| Store.CountWithStatus | app.py:191-192 | a status count never exceeds the number of bookings, and is 0 iff no booking has that status |
| Store.DecimalString | app.py:329 | `str(booking_id)` is a non-empty string of decimal digits with no leading zero, one digit exactly below 10 |
| Store.DecimalRoundTrip | app.py:329 | reading the digits of `str(n)` back gives `n` |
| Store.FilterSelects | app.py:223 | no filter, an empty one or "All" selects every status; any other filter selects exactly the status it names |
| Store.ListedIds | app.py:214-225 | the listing holds exactly the bookings whose package exists and whose status passes the filter |
| Store.BusyIds | app.py:405-411 | a busy date lists exactly its confirmed bookings whose package exists |
| Store.BookingStore.CreateBooking | app.py:95-131 | missing or falsy required field: 400 and nothing inserted; otherwise 201 with the new id and exactly one new Pending Review row holding the request's values; busy dates and their invariant untouched |
| Store.BookingStore.AdminLogin | app.py:135-160 | matching credentials of an admin user: 200 and the session gains user_id, username and role "admin"; otherwise 401 and the session is unchanged |
| Store.BookingStore.AdminLogout | app.py:168-171 | the session is emptied, so no admin is logged in, with 200 |
| Store.BookingStore.FetchDashboardStats | app.py:175-196 | non-admin: 401; otherwise exactly the four keys, total_bookings being the number of bookings and each status key the count of bookings with that status |
| Store.BookingStore.GetAllBookings | app.py:204-238 | non-admin: 401; otherwise each booking of a known package that passes the filter, exactly once, joined with its package name, latest booking first |
| Store.BookingStore.UpdateBookingStatus | app.py:249-329 | 401, 400 (missing), 400 (invalid), 404 in that order leave both tables unchanged; otherwise the status is written, the busy set updated by upsert/conditional delete, the exact success message returned and the busy-date invariant kept |
| Store.BookingStore.DeleteBooking | app.py:340-379 | 401 and 404 change nothing; otherwise the row goes, the date is freed iff it was confirmed and none remains, and the busy-date invariant is kept |
| Store.BookingStore.GetBusyDates | app.py:388-419 | non-admin: 401; otherwise one entry per busy date, ascending, each listing exactly its confirmed bookings of known packages in booking order with name and package name |
| Store.BookingStore.BusyLines | app.py:405-412 | one line per booking id, in order, with the booking's name and its package's name |
| Store.BookingStore.ClearAllBookings | app.py:428-445 | 401 or a missing/falsy confirm_clear (400) change nothing; otherwise both tables end empty and consistent |
| Client.JsTruthy | static/js/script.js:86 | a JavaScript value is falsy exactly when it is undefined, null, false, 0 or the empty string; arrays are truthy |
| Client.FirstMatchIsFirst | static/js/script.js:23-31 | the style of keyword i comes out iff keyword i occurs and no earlier one does; the default iff none occurs |
| Client.StylesDistinct | static/js/script.js:25-31 | the seven styles are pairwise different, so a style identifies its keyword |
| Client.CardClassAndIcon | static/js/script.js:23-31 | the if-chain on the lower-cased name equals the first match in the ordered keyword table |
| Client.NotContainsMissingChar | static/js/script.js:24-30 | a keyword with a character the name lacks does not match |
| Client.BirthdayWins | static/js/script.js:24-25 | any name containing "BIRTHDAY" is classified as a birthday |
| Client.PrivateWeddingIsPrivateParty | static/js/script.js:27-28 | "Private Wedding" is a private party, since "private" is tried before "wedding" |
| Client.WeddingPartyIsWedding | static/js/script.js:25-28 | "Wedding Party" is a wedding |
| Client.StatusClass | static/js/script.js:200-207 | pending-review, confirmed, rejected for the three statuses (each iff), the empty class for any other value |
| Client.ActionButtons | static/js/script.js:227-229 | a Confirm button iff the status is not Confirmed, a Reject button iff not Rejected, always a last Delete button, so one to three buttons in all, each carrying the booking id and the right target status |
| Client.PendingGetsAllButtons | static/js/script.js:227-229 | a Pending Review booking gets Confirm, Reject and Delete |
| Client.Inclusions | static/js/script.js:66-74 | an array yields its elements in order, a string one trimmed item per comma-separated piece, any other value nothing |
| Client.InclusionsOfText | static/js/script.js:70-73 | a string yields one item more than it has commas, and the pieces join back to the string |
| Client.BuildInclusions | static/js/script.js:65-75 | the loops yield the array's items in order, the trimmed pieces of a string, and nothing for any other value |
| Client.TrimmedPieces | static/js/script.js:71-73 | the string branch splits at commas and trims each piece, giving exactly what `Inclusions` gives for the string |
| Client.TrimEach | static/js/script.js:72-73 | the loop over the pieces yields one item per piece, in order, each piece trimmed |
| Client.PriceLabelOf | static/js/script.js:86 | "Price on request" iff the price is falsy, otherwise the price itself |
| Client.MessageOr | static/js/script.js:133 | the server's message when non-empty, the fallback text otherwise |
| Client.MessageText | static/js/script.js:294 | the text shown for a message is the message itself, or empty when the answer has none |
| Client.BookingSubmitOutcome | static/js/script.js:131-146 | ok: the server's non-empty message, or the default text when the message is absent or empty, as success with a reload scheduled; not ok: the message or the fallback text as error, no reload; exception: the generic error |
| Client.AfterRequest | static/js/script.js:292-307 | the request is sent; on ok the server's message (empty when absent) as success and all three lists re-fetched; not ok: the message or the action's fallback as error; exception: the action's error text; nothing re-fetched unless ok |
| Client.UpdateStatusOutcome | static/js/script.js:264-308 | a missing id or status sends nothing and shows the error; otherwise a PUT of {status} to the booking's status URL, followed by exactly `AfterRequest` with "Failed to update status." and the console-details error text: the server's message on ok and bookings, stats and busy dates re-fetched, otherwise the message or fallback as error and nothing re-fetched |
| Client.DeleteOutcome | static/js/script.js:311-337 | a declined confirmation sends nothing and shows nothing; otherwise a DELETE of the booking followed by exactly `AfterRequest` with "Failed to delete booking." and its error text, so the three lists are re-fetched iff the answer is ok |
| Client.ClearAllOutcome | static/js/script.js:415-442 | a declined confirmation sends nothing; otherwise a DELETE with body {confirm_clear: true} followed by exactly `AfterRequest` with "Failed to clear bookings." and its error text, so the three lists are re-fetched iff the answer is ok |
| Client.LogoutResult | static/js/script.js:398-413 | the login page iff the answer is ok; otherwise an alert with the message or fallback, or the generic text on an exception |
| Client.ShownStats | static/js/script.js:153-160 | the four counters show total_bookings, pending_review, confirmed and rejected, blank for a missing field |
| Client.BookingFilter | static/js/script.js:173 | the select's value, or "All" when there is no select |
| Render.PackageCardOf | static/js/script.js:60-89 | a package card carries the first-match style, the name, the description or "", the inclusions and the price label of the price: the amount when it is truthy, "Price on request" otherwise |
| Render.BookingCardOf | static/js/script.js:196-231 | a booking card shows the booking's own name, e-mail, phone, package name, date, location and guest count, the status and its class, the package icon, the requirements only when truthy, and the action buttons |
| Render.BusyLinesOf | static/js/script.js:378-386 | exactly the fallback line when the bookings are missing or empty; otherwise one line per booking, in order |
| Render.FallbackExactlyWhenEmpty | static/js/script.js:379-385 | the fallback line appears iff there is nothing to list, and a date never has zero lines |
| Render.PackagesView | static/js/script.js:51-91 | the placeholder alone for no packages; otherwise one package card per package, in order, and no placeholder |
| Render.BookingsView | static/js/script.js:187-233 | the placeholder alone for no bookings; otherwise one booking card per booking, in order |
| Render.BusyDatesView | static/js/script.js:357-396 | the placeholder alone for no dates; otherwise one item per date with its lines, in order |
| Render.PackagesViewAppend | static/js/script.js:60-91 | one more package renders as the previous cards followed by its card |
| Render.BuildPackageCard | static/js/script.js:61-89 | the loop body builds exactly the package's card: first-match style, inclusions built item by item, description or "", price label |
| Render.RenderEventPackages | static/js/script.js:51-91 | after clearing and appending, the container shows exactly the packages view |
| Render.BuildBookingCard | static/js/script.js:197-231 | the loop body builds exactly the booking's card: status class by the if-chain, package icon, requirements when truthy, buttons by status |
| Render.RenderBookings | static/js/script.js:187-233 | after clearing and appending, the container shows exactly the bookings view |
| Render.BuildBusyLines | static/js/script.js:378-386 | the inner loop builds exactly the lines of the date |
| Render.RenderBusyDates | static/js/script.js:357-396 | after clearing and appending, the container shows exactly the busy-dates view |
| Dashboard.FirstIndex | static/js/script.js:463 | `getElementById`/`querySelector` find the first match: none iff no element matches, else a match with no earlier one |
| Dashboard.FetchesFor | static/js/script.js:467-474 | bookings-management re-fetches the bookings, dashboard-overview all three lists, any other tab nothing |
| Dashboard.OverviewRefreshesEverything | static/js/script.js:467-474 | only the overview tab re-fetches every list, and only it re-fetches the stats |
| Dashboard.AdminDashboard.constructor | static/js/script.js:446-448 | the page as loaded: the markup's links and sections, no inline display set |
| Dashboard.AdminDashboard.ClickLink | static/js/script.js:450-476 | exactly the clicked link is active; every section is hidden except the first with the target id, which is shown; at most one section is shown; re-fetches by target |
| Dashboard.AdminDashboard.InitialLoad | static/js/script.js:478-485 | the first section marked active is shown and all three lists fetched; without one nothing changes |
| Dashboard.ShownIffTargetExists | static/js/script.js:459-466 | after a click some section is shown iff a section carries the target id |
| Interface.StatsFieldsAreServerKeys | app.py:186-194 | the fields the dashboard reads are exactly total_bookings and the three status keys the server builds |
| Interface.DashboardShowsServerStats | static/js/script.js:153-160 | for the server's stats body the counters show the total and each status count, none blank |
| Interface.ClearAllBodyIsConfirmation | app.py:433-434 | the body the clear-all button sends passes the server's confirmation check |
| Interface.ButtonStatusesAccepted | app.py:259-267 | the status a Confirm or Reject button sends passes the whitelist and names Confirmed or Rejected respectively |
| Interface.StoredStatusHasBadge | static/js/script.js:200-229 | every stored status gets a non-empty badge class, and a Confirm button iff it is not Confirmed |
| Interface.FilterRoundTrip | app.py:223-225 | no filter select asks for everything; a chosen status selects exactly the bookings with that status |

## Left out

- Database connections and errors: the 500 answers for a failed connection or a failing query are not modelled, except that `create_booking` with a non-text `preferred_date` is treated as a rejected insert (500) and changes nothing.
- Failure atomicity: the status update and the delete commit before the busy-date writes. The model runs each handler to completion and claims no rollback.
- `update_booking_status` never checks for a missing connection. That is infrastructure and is not modelled.
- MySQL value coercion and collation: columns hold the request's values unchanged, strings compare exactly (MySQL's default collation ignores case and trailing spaces), and user names match exactly.
- Store.BookingStore.CreateBooking: the `status` default and the `booking_date` timestamp come from the table schema, which is not part of this model. New rows are taken to be Pending Review, and the timestamp is the parameter `now`.
- Store.BookingStore.AdminLogin: passwords compare as stored values (the source stores them in plain text). The `redirect_url` of the answer is left out.
- Date formatting and parsing: `strftime`, `strptime` and `isoformat` on the server, and `toLocaleDateString`/`toLocaleString` in the browser. Dates are opaque ISO strings.
- The delete handler's string-date branch turns a date into a date-and-time string that would not match stored dates. That quirk is not modelled: the model compares the booking's own date.
- Flask routing, templates, redirects and JSON encoding. Request bodies that are not JSON objects are not modelled, and a body is a map or absent.
- The event-packages endpoint and `fetchEventPackages` (loading text, failure text, JSON-decoding of `what_included`) are not modelled. The rendering of the list they fetch is modelled.
- DOM details: `innerHTML` strings, event-listener wiring, `sessionStorage`, `window.location`, `console` logging and the admin-page path check. Cards and lines are records of what they show.
- Timers: the 5-second message hide and the 2-second reload. Only "a reload is scheduled" is recorded.
- `fetchBookings`, `fetchDashboardStats` and `fetchBusyDates` themselves: their loading and failure messages are not modelled. Their effects are `Refresh` values, and their rendering is modelled.
- Values.Truthy: request fields are modelled as scalars (None, booleans, integers, strings); floats, arrays and objects in a JSON body, and their truthiness, are not modelled.
- Client.JsTruthy: JavaScript values have no objects, and numbers are integers (no NaN, no fractions).
- Client.CardClassAndIcon: lower-casing covers ASCII letters only, not the full Unicode case mapping of `toLowerCase`.
- Text.Lower: lower-cases ASCII letters only; `toLowerCase` and Python's `lower` map every Unicode letter and can change a string's length.
- Store.StatsKey: built on the ASCII `Text.Lower`; the three status texts it is applied to are ASCII, so its keys are exact.
- Dashboard.AdminDashboard.ClickLink: `getElementById` is searched among the admin sections only, and the click target is taken to be the link itself, not a child element.
- Overlapping or out-of-order asynchronous requests are concurrency and are not modelled.
