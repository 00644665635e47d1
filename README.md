# OroShine booking and notification core, modelled in Dafny

OroShine is a Django web application for a dental clinic. This project
models its booking core and proves properties of that model:

- **Booking.** The booking view refuses a new appointment when another
  one for the same doctor and date falls within 30 minutes of it.
  Otherwise it saves the row, then asks for the confirmation e-mail and
  the calendar invite.
- **Contact form.** The contact view validates the form and builds an
  ordered list of error messages.
- **Celery tasks.** The tasks send the e-mails. A cache marker keeps each
  one from being sent twice in 24 hours. Failures are retried at most 3
  times. The calendar task creates the Google Calendar event.
- **Caching.** The cache helpers put doctors, booked slots, user
  statistics and the service list in front of the database, and
  invalidate them.
- **Rate limiting.** Redis counts each client IP: 10 requests per
  60-second window.
- **Smaller modules.** The admin display helpers and bulk actions, the
  e-mail-or-username login backend, the sign-up adapter's username
  generation, two form hooks, and the Prometheus label logic.

## How the model is built

- **Times and dates.** A time of day is a number of minutes since
  midnight (`Records.Minute`, 0..1439), or seconds where the calendar
  task needs them. A date is a day number, counted from 0001-01-01 as
  `date.toordinal() - 1` counts it. The calendar task's date and time
  strings are parsed as `strptime` parses them (`Tasks.ParseDate`,
  `Tasks.ParseClock`). Every clock reading is an explicit `now`
  parameter.
- **The Django cache.** It is a map from keys to a value and an expiry
  instant (`KeyValue`). Reading an absent or expired key gives `Null`,
  as `cache.get` gives `None`. Python truthiness of a cached value is
  stated by `KeyValue.Truthy`.
- **Calls into code outside the model** are parameters that say how the
  call ends, returning (`Py.Returned`) or raising (`Py.Raised`). These
  calls are the ORM `save` and `Contact.objects.create`, the Redis
  script call, the SMTP and Google clients, `check_password`,
  `validate_email`, `slugify`, `random.randint` and `time.time`.
  `Py.Raised` stands for an exception derived from `Exception`, which is
  what the code's handlers catch; a bare `BaseException` such as
  `KeyboardInterrupt` or `SystemExit` is not modelled.
- **Mutable things are classes** whose methods state their new state
  exactly. These are the cache, the Redis counters, the task worker's
  outbox and event list, the admin tables, the user object and the
  metrics registry.
- **Pure logic** is functions, with lemmas about them. This covers key
  formats, window bounds, guard chains, time padding, validation, the
  username base, the endpoint labels and the duration display.
- **Celery's `self.retry` and `autoretry_for`** are an outcome.
  `Retry` or `CalendarRetry` is returned while fewer than 3 retries have
  been made, and `GaveUp` or `CalendarGaveUp` after that.
- **Requests are handled one after another.** The code takes no lock,
  opens no transaction and uses no `select_for_update`, so the model has
  nothing to say about racing requests. Its separation property is a
  sequential one (`Views.BookAllSeparated`).

## Behaviour of the code worth knowing

- The booking view's conflict query has no status filter. A cancelled or
  completed appointment still blocks its slot (`Views.StatusIsIgnored`,
  `Views.CancelledRowBlocks`).
- When t − 30 or t + 30 crosses midnight, the range bounds wrap and the
  query matches nothing. Two bookings 5 minutes apart can then both be
  stored (`Views.MidnightNeighboursBothAdmitted`).
- A rate-limit counter is cleared only by expiry; a successful request
  never resets it. The limit is 10 per 60 seconds for every request.
- `create_calendar_event_task` refers to an undefined `appointment_id`:
  - It does so at line 221, when an event id is already recorded. The
    resulting NameError goes to the generic retry, so that path ends in
    a retry rather than in `{"status": "skipped"}`.
  - It does so again at line 287, after the insert. So every delivery
    that reaches the insert inserts an event and then retries, and the
    success result is never returned. The event id is never stored, so
    each retry inserts again (`Tasks.InsertRepeatsOnEveryRetry`).
- `send_appointment_cancel_email_task` looks the row up with `id=` given
  a ULID. It finds a row only when the ULID string is a decimal number
  that is some row's id. Otherwise the task raises and is retried.
- The admin bulk actions update every selected row whatever its status,
  so a cancelled appointment can be marked confirmed again.

## Model

| member | source | states |
|---|---|---|
| Views.Window | oroshine_app/oroshine_webapp/views.py:40-45 | the window is t−30 to t+30 minutes when it stays within the day, and its start exceeds its end when either bound crosses midnight |
| Views.IsBooked | oroshine_app/oroshine_webapp/views.py:48-52 | the conflict check is true exactly when some stored row has the same date, the same doctor e-mail and a time inside the window |
| Views.Admit | oroshine_app/oroshine_webapp/views.py:48-69 | one valid booking request: the rows are unchanged when the conflict query finds a row, and the request is appended otherwise; its properties are the separation and append-only lemmas below |
| Views.ConflictIsWithinBuffer | oroshine_app/oroshine_webapp/views.py:43-52 | without a midnight wrap, a request is refused exactly when a row for the same doctor and date is at most 30 minutes away |
| Views.StatusIsIgnored | oroshine_app/oroshine_webapp/views.py:48-52 | changing the status of any stored row does not change the conflict verdict |
| Views.CancelledRowBlocks | oroshine_app/oroshine_webapp/views.py:48-65 | a cancelled row inside the window still blocks the booking, and nothing is added |
| Views.WrappedWindowFindsNothing | oroshine_app/oroshine_webapp/views.py:43-52 | when the window wraps past midnight no conflict is found and the request is stored |
| Views.AdmitKeepsSeparated | oroshine_app/oroshine_webapp/views.py:43-69 | one request with a non-wrapping window keeps any two bookings for the same doctor and date more than 30 minutes apart |
| Views.BookAllSeparated | oroshine_app/oroshine_webapp/views.py:43-69 | the same separation holds after any sequence of such requests handled one after another |
| Views.BookAllOnlyAppends | oroshine_app/oroshine_webapp/views.py:59-69 | each request adds at most one row and never changes or removes an existing one |
| Views.MidnightNeighboursBothAdmitted | oroshine_app/oroshine_webapp/views.py:43-45 | with the wrap, 23:50 and 23:45 for the same doctor and date are both stored, breaking the separation |
| Views.AppointmentView.Post | oroshine_app/oroshine_webapp/views.py:35-99 | an invalid form or a conflict saves nothing and calls nothing; a failed save stores nothing; otherwise exactly the new row is appended before the e-mail call, the calendar call is made only when the e-mail returned, and a later failure keeps the saved row |
| Views.ContactErrorsSpec | oroshine_app/oroshine_webapp/views.py:126-139 | each message is present exactly when its condition holds (name, e-mail required or invalid, subject, message), the list follows that order, and it is empty exactly when every field is acceptable |
| Views.ContactErrorsMembership | oroshine_app/oroshine_webapp/views.py:126-139 | the membership half: a message is in the list if and only if its check fails; "invalid" only for a non-empty e-mail |
| Views.ContactErrorsInOrder | oroshine_app/oroshine_webapp/views.py:126-139 | the order half: messages appear strictly in the order the checks run |
| Views.ValidateContact | oroshine_app/oroshine_webapp/views.py:126-139 | the appending checks build exactly the specified error list |
| Views.ContactView.Post | oroshine_app/oroshine_webapp/views.py:118-174 | fields are stripped and the e-mail lowercased; a rejected form carries exactly the field-ordered error list and creates and sends nothing; a raising `Contact.objects.create` shows "Something went wrong" and creates and sends nothing; otherwise exactly one Contact with the cleaned fields is created and then notified, and the outcome is the thank-you message exactly when the notification returns |
| Text.StripSpec | oroshine_app/oroshine_webapp/views.py:120-123 | `strip()` keeps a slice of the input with only whitespace removed at either end, leaves no whitespace at its ends, and is empty exactly for all-whitespace input |
| Text.NatToStringRoundTrip | oroshine_app/oroshine_webapp/tasks.py:26 | the decimal text of a number reads back as that number, so numeric ids in keys and messages are unambiguous |
| Tasks.MarkerKeysDistinct | oroshine_app/oroshine_webapp/tasks.py:26 | markers of different tasks or of different ids never share a cache key |
| Tasks.MarkedStep | oroshine_app/oroshine_webapp/tasks.py:71-91 | one delivery of a marked e-mail task: a live truthy marker skips; a missing row is not_found (retry in the cancellation task); a failing send retries or gives up; a returning send appends the message and sets the marker; stated by the lemmas below |
| Tasks.SkippedWhileMarked | oroshine_app/oroshine_webapp/tasks.py:28-30 | while the marker is live the task returns "skipped", sends nothing and changes nothing |
| Tasks.MarkerOnlyAfterSend | oroshine_app/oroshine_webapp/tasks.py:80-84 | the marker is written, for 86400 seconds, only by a delivery whose send returned, and such a delivery appends exactly its message |
| Tasks.FailuresLeaveMarkerUnset | oroshine_app/oroshine_webapp/tasks.py:86-91 | a missing row gives "not_found", a failing send gives retry (at most 3) or gives up, and neither sends nor sets the marker |
| Tasks.SecondRunSkipped | oroshine_app/oroshine_webapp/tasks.py:80-84 | a second delivery within 24 hours of a successful one is skipped and changes nothing |
| Tasks.MarkedRunsChangeNothing | oroshine_app/oroshine_webapp/tasks.py:106-108 | any number of deliveries while the marker stays live change neither the cache nor the outbox |
| Tasks.AtMostOnceWithinTtl | oroshine_app/oroshine_webapp/tasks.py:113-122 | deliveries of one task for one id within one 24-hour span send at most one message and only append |
| Tasks.ResetStep | oroshine_app/oroshine_webapp/tasks.py:135-153 | one delivery of a password-reset task: the message is appended when the send returns, and the task retries or gives up otherwise; no marker is read or written |
| Tasks.ResetSendsEveryTime | oroshine_app/oroshine_webapp/tasks.py:135-153 | the password-reset tasks have no marker: every delivery whose send returns adds another copy of the same message |
| Tasks.NormaliseTime | oroshine_app/oroshine_webapp/tasks.py:237-238 | a time string with exactly two colon-separated parts gets ":00" appended; pinned down by the two padding lemmas below |
| Tasks.ParseClock | oroshine_app/oroshine_webapp/tasks.py:240 | a time string parses only when it has exactly three colon-separated parts |
| Tasks.ParseClockFields | oroshine_app/oroshine_webapp/tasks.py:240 | "H:M:S" with fields of one or two digits in range parses as H·3600 + M·60 + S seconds |
| Tasks.TwoPartTimeGetsZeroSeconds | oroshine_app/oroshine_webapp/tasks.py:236-240 | a two-part "H:M" gets ":00" appended and then parses as H·3600 + M·60 |
| Tasks.ThreePartTimeUnchanged | oroshine_app/oroshine_webapp/tasks.py:238 | a three-part time string is not padded |
| Tasks.ParseDate | oroshine_app/oroshine_webapp/tasks.py:233-234 | a date string parses only when it has exactly three hyphen-separated parts; which fields are accepted, and the day number they give, is stated by ParseDateFields |
| Tasks.ParseDateFields | oroshine_app/oroshine_webapp/tasks.py:233-234 | "Y-M-D" with well-formed fields parses exactly when the date is valid (month 1..12, day within the month, 29 February only in Gregorian leap years), and then as that date's day number |
| Tasks.DaysBeforeNextYear | oroshine_app/oroshine_webapp/tasks.py:233-234 | a year adds 366 days to the day count when it is a leap year and 365 otherwise |
| Tasks.NextDayOrdinal | oroshine_app/oroshine_webapp/tasks.py:233-234 | parsed dates have day numbers without gaps: the next day of the month, the first of the next month and New Year's Day each get the next number |
| Tasks.FirstDayIsZero | oroshine_app/oroshine_webapp/tasks.py:233-234 | 0001-01-01 is day 0, as `date.toordinal() - 1` |
| Tasks.CalendarStep | oroshine_app/oroshine_webapp/tasks.py:200-310 | one delivery of the calendar task: the guard chain, the date and time parsing, and the event inserted before the retry; stated by the lemmas below |
| Tasks.CalendarGuardOrder | oroshine_app/oroshine_webapp/tasks.py:220-240 | a recorded event id (which raises at line 221) goes to retry; then a status outside confirmed/pending is skipped with that status; then a missing doctor or doctor e-mail is invalid; then a date or time string that strptime refuses goes to retry; none of these inserts |
| Tasks.CalendarEventLength | oroshine_app/oroshine_webapp/tasks.py:232-273 | an inserted event starts at the appointment's parsed date and time, ends 30 minutes later, and invites the patient and the doctor |
| Tasks.InsertRepeatsOnEveryRetry | oroshine_app/oroshine_webapp/tasks.py:281-307 | a row that passes the guards is inserted and the delivery still retries (or gives up), since the event id is never stored |
| Tasks.Worker.RunMarked | oroshine_app/oroshine_webapp/tasks.py:71-91 | one marked-task delivery leaves the cache and outbox exactly as the step function says and touches no calendar event |
| Tasks.Worker.SendWelcomeEmailTask | oroshine_app/oroshine_webapp/tasks.py:20-54 | the welcome task is the marked step under `welcome_email_sent:<user_id>`, with no row to load |
| Tasks.Worker.SendAppointmentEmailTask | oroshine_app/oroshine_webapp/tasks.py:61-91 | the appointment task is the marked step under the ULID's marker, with the row found by ULID |
| Tasks.Worker.SendContactEmailTask | oroshine_app/oroshine_webapp/tasks.py:101-129 | the contact task is the marked step under `contact_email_sent:<id>`, with the row found by id |
| Tasks.Worker.SendAppointmentCancelEmailTask | oroshine_app/oroshine_webapp/tasks.py:320-347 | the cancel task is the marked step; its `id=` lookup with a ULID finds a row only for a decimal ULID that is a row id, otherwise it retries |
| Tasks.Worker.SendPasswordResetEmailTask | oroshine_app/oroshine_webapp/tasks.py:135-153 | each delivery sends when the send returns and retries otherwise, with no marker |
| Tasks.Worker.SendPasswordResetSuccessEmailTask | oroshine_app/oroshine_webapp/tasks.py:162-185 | the same for the reset-success e-mail |
| Tasks.Worker.CreateCalendarEventTask | oroshine_app/oroshine_webapp/tasks.py:200-310 | the calendar task records an event exactly when the step function inserts one, returns its outcome and sends no e-mail |
| KeyValue.Written | oroshine_app/oroshine_webapp/utils/cache_helpers.py:69 | after `cache.set(key, v, ttl)` the key reads as v for ttl seconds and as None after that, and every other key reads as before |
| KeyValue.CacheAside | oroshine_app/oroshine_webapp/utils/cache_helpers.py:66-69 | the cache-aside read: a cached value other than None is returned, and otherwise the load is returned and stored for the timeout; stated by the three lemmas below |
| KeyValue.HitReturnsCachedValue | oroshine_app/oroshine_webapp/utils/cache_helpers.py:66-74 | a hit returns the cached value, leaves the cache alone and does not run the query |
| KeyValue.MissStoresLoad | oroshine_app/oroshine_webapp/utils/cache_helpers.py:66-69 | a miss runs the query, returns its result and keeps it for the timeout |
| KeyValue.NullLoadQueriesAgain | oroshine_app/oroshine_webapp/utils/cache_helpers.py:67-69 | a query that returns None is stored as None, which reads as a miss, so it runs again on the next call |
| KeyValue.Cache.Set | oroshine_app/oroshine_webapp/utils/cache_helpers.py:69 | writes exactly the one entry |
| KeyValue.Cache.Delete | oroshine_app/oroshine_webapp/utils/cache_helpers.py:150 | removes exactly the one key |
| KeyValue.Cache.DeleteMany | oroshine_app/oroshine_webapp/utils/cache_helpers.py:119 | removes exactly the given keys |
| CacheHelpers.SlotsKeyInjective | oroshine_app/oroshine_webapp/utils/cache_helpers.py:25 | `slots:{doctor_email}:{date}` names one doctor and one date: equal keys mean equal e-mail and date |
| CacheHelpers.UserKeysDistinct | oroshine_app/oroshine_webapp/utils/cache_helpers.py:26-27 | each per-user key names one user, and the user keys never coincide with each other, a slot key or a doctor key |
| CacheHelpers.DoctorKeyDistinct | oroshine_app/oroshine_webapp/utils/cache_helpers.py:22-24 | a doctor key is never one of the two list keys |
| CacheHelpers.QueryKeysCanCollide | oroshine_app/oroshine_webapp/utils/cache_helpers.py:64 | `cached_query` joins its arguments without escaping, so ["a:b"] and ["a", "b"] share a key |
| CacheHelpers.CachedQuery | oroshine_app/oroshine_webapp/utils/cache_helpers.py:62-74 | the wrapper is the cache-aside read under prefix:function:args with its timeout |
| CacheHelpers.BookedSlots | oroshine_app/oroshine_webapp/utils/cache_helpers.py:134-140 | the slot set is exactly the times of that doctor's pending or confirmed appointments on that date |
| CacheHelpers.StatsAddUp | oroshine_app/oroshine_webapp/utils/cache_helpers.py:184-190 | the four status counts of a user's appointments add up to the total |
| CacheHelpers.DoctorLookup | oroshine_app/oroshine_webapp/utils/cache_helpers.py:83-100 | the doctor lookup with negative caching: a cached doctor is returned, the cached False gives None, and a miss queries and caches the doctor or False; stated by the lemmas below |
| CacheHelpers.FoundDoctorIsCached | oroshine_app/oroshine_webapp/utils/cache_helpers.py:88-93 | on a miss, an active doctor is returned and cached for 1800 seconds |
| CacheHelpers.MissingDoctorIsNegativelyCached | oroshine_app/oroshine_webapp/utils/cache_helpers.py:94-100 | on a miss, an unknown or inactive doctor gives None and is cached as False for 300 seconds, and later calls within that time return None without a query |
| CacheHelpers.DoctorLookupTouchesOneKey | oroshine_app/oroshine_webapp/utils/cache_helpers.py:83-100 | a doctor lookup changes no key but the doctor's own |
| CacheHelpers.GetDoctorCached | oroshine_app/oroshine_webapp/utils/cache_helpers.py:83-100 | the method's result and new cache are those of the doctor lookup |
| CacheHelpers.DoctorInvalidationKeys | oroshine_app/oroshine_webapp/utils/cache_helpers.py:111-117 | the two list keys always, plus the doctor's key exactly when an e-mail is given: 3 keys then, else 2 |
| CacheHelpers.InvalidateDoctorCache | oroshine_app/oroshine_webapp/utils/cache_helpers.py:109-119 | deletes exactly those keys |
| CacheHelpers.GetBookedSlotsCached | oroshine_app/oroshine_webapp/utils/cache_helpers.py:127-144 | a cache-aside read of the slot set under the slot key with 180 seconds |
| CacheHelpers.InvalidateSlotsCache | oroshine_app/oroshine_webapp/utils/cache_helpers.py:147-151 | deletes exactly the one slot key |
| CacheHelpers.GetUserAppointmentStatsCached | oroshine_app/oroshine_webapp/utils/cache_helpers.py:177-194 | a cache-aside read of the user's statistics with 600 seconds |
| CacheHelpers.UserInvalidationKeys | oroshine_app/oroshine_webapp/utils/cache_helpers.py:199-202 | exactly the user's appointments key and stats key, two distinct keys |
| CacheHelpers.InvalidateUserCache | oroshine_app/oroshine_webapp/utils/cache_helpers.py:197-203 | deletes exactly those two keys |
| CacheHelpers.AppointmentInvalidationKeys | oroshine_app/oroshine_webapp/utils/cache_helpers.py:216-223 | exactly the slot key of the appointment's doctor and date, and its user's two keys: three distinct keys |
| CacheHelpers.InvalidateAppointmentRelatedCache | oroshine_app/oroshine_webapp/utils/cache_helpers.py:211-225 | deletes exactly those three keys |
| CacheHelpers.DeletingKeys | oroshine_app/oroshine_webapp/utils/cache_helpers.py:119 | deleted keys read as None and every other key reads as before |
| CacheHelpers.WarmedCoversRange | oroshine_app/oroshine_webapp/utils/cache_helpers.py:237-253 | after warming, every day of the range reads as its booked slots for 180 seconds |
| CacheHelpers.WarmedLeavesOtherKeys | oroshine_app/oroshine_webapp/utils/cache_helpers.py:237-253 | warming changes no key other than the range's slot keys |
| CacheHelpers.WarmCacheForDateRange | oroshine_app/oroshine_webapp/utils/cache_helpers.py:229-255 | the loop over the days leaves the specified warmed cache, and nothing changes when start > end |
| ServicesCache.ActivePairs | oroshine_app/oroshine_webapp/services_cache.py:10-14 | one (code, name) pair per active service |
| ServicesCache.ActivePairsSpec | oroshine_app/oroshine_webapp/services_cache.py:10-14 | every active service's pair is included and every pair is that of an active service |
| ServicesCache.EmptyTupleIsAHit | oroshine_app/oroshine_webapp/services_cache.py:8-9 | a cached empty tuple is a hit: it is returned and no query is made |
| ServicesCache.GetServiceTuples | oroshine_app/oroshine_webapp/services_cache.py:7-16 | a cache-aside read under "service_tuples_v1" with 86400 seconds |
| RateLimit.Script | oroshine_app/oroshine_webapp/middleware/rate_limit.py:8-15 | one run of the Lua script: INCR the key, EXPIRE it when the count is 1, allow while the count is at most the limit; stated by ScriptSpec |
| RateLimit.ScriptSpec | oroshine_app/oroshine_webapp/middleware/rate_limit.py:8-15 | every run increments the count, allowed or not; the expiry is set only when the count becomes 1 and is never moved; the request is allowed exactly when the new count is at most the limit; no other key changes |
| RateLimit.ExpiryRestartsCount | oroshine_app/oroshine_webapp/middleware/rate_limit.py:9-12 | after expiry the next request restarts the count at 1, opens a new 60-second window and is allowed |
| RateLimit.RequestsWithinLiveWindow | oroshine_app/oroshine_webapp/middleware/rate_limit.py:9-13 | within a live window each request adds one to the count and the expiry stays put, so the window is fixed, not sliding |
| RateLimit.TenPerWindow | oroshine_app/oroshine_webapp/middleware/rate_limit.py:13-21 | from a fresh key, of the requests within 60 seconds of the first, the first 10 are allowed and the 11th and later refused |
| RateLimit.RateKeysDistinct | oroshine_app/oroshine_webapp/middleware/rate_limit.py:27-28 | different client addresses have different counters |
| RateLimit.Redis.RunScript | oroshine_app/oroshine_webapp/middleware/rate_limit.py:30-33 | one script run leaves the counters as the script function says and returns its verdict; a failing call raises and leaves the counters as they were |
| RateLimit.RateLimitCall | oroshine_app/oroshine_webapp/middleware/rate_limit.py:26-41 | a refused request gets a 429 and is not passed on; an allowed one gets the downstream response unchanged; a failing script call propagates its exception and the request is not passed on |
| Admin.DurationDisplay | oroshine_app/oroshine_webapp/admin.py:61-67 | "Hh Mm", "Hh" or "Mm" from floor division by 60; its meaning is stated by the round trip below |
| Admin.DurationDisplayRoundTrip | oroshine_app/oroshine_webapp/admin.py:61-67 | for a non-negative duration, the hours and minutes displayed read back as that duration (hours·60 + minutes) |
| Admin.NegativeDurationShowsRemainder | oroshine_app/oroshine_webapp/admin.py:63-67 | Python's floor division shows −30 minutes as "30m" |
| Admin.UlidShort | oroshine_app/oroshine_webapp/admin.py:137-139 | the first 8 characters of the ULID (all of a shorter one), then "..." |
| Admin.AppointmentCount | oroshine_app/oroshine_webapp/admin.py:71-80 | the column reads '0' exactly when the service has no appointments |
| Admin.MarkStatus | oroshine_app/oroshine_webapp/admin.py:156-168 | the `queryset.update(status=...)` of the bulk actions, keeping the number of rows; stated by MarkStatusSpec |
| Admin.MarkStatusSpec | oroshine_app/oroshine_webapp/admin.py:156-168 | exactly the selected rows get the new status, whatever they had, and no other field or row changes |
| Admin.MarkStatusIdempotent | oroshine_app/oroshine_webapp/admin.py:156-168 | applying the same action twice is applying it once |
| Admin.TerminalRowsAreUpdated | oroshine_app/oroshine_webapp/admin.py:156-158 | a cancelled appointment can be marked confirmed again |
| Admin.AppointmentTable.MarkAsConfirmed | oroshine_app/oroshine_webapp/admin.py:156-158 | the update, with the count of selected rows in "N appointment(s) confirmed." |
| Admin.AppointmentTable.MarkAsCompleted | oroshine_app/oroshine_webapp/admin.py:161-163 | the update, with "N appointment(s) completed." |
| Admin.AppointmentTable.MarkAsCancelled | oroshine_app/oroshine_webapp/admin.py:166-168 | the update, with "N appointment(s) cancelled." |
| Admin.SetActive | oroshine_app/oroshine_webapp/admin.py:90-99 | the `queryset.update(is_active=...)` of the service actions, keeping the number of rows; stated by SetActiveSpec |
| Admin.SetActiveSpec | oroshine_app/oroshine_webapp/admin.py:90-99 | exactly the selected services get the flag, and nothing else changes |
| Admin.ServiceTable.ActivateServices | oroshine_app/oroshine_webapp/admin.py:90-93 | sets is_active on the selected services, with "N service(s) activated." |
| Admin.ServiceTable.DeactivateServices | oroshine_app/oroshine_webapp/admin.py:96-99 | clears it, with "N service(s) deactivated." |
| Backends.LoginKey | oroshine_app/oroshine_webapp/backends.py:28 | the login key is the input lowercased and stripped; its case-insensitivity is stated by InputCaseIgnored |
| Backends.FirstMatch | oroshine_app/oroshine_webapp/backends.py:31-33 | the first user, in primary-key order, whose e-mail or username equals the key case-insensitively; None when there is none |
| Backends.Authenticate | oroshine_app/oroshine_webapp/backends.py:19-44 | a user is returned only when username and password are given, the lookup does not fail, and the user matches the lowered and stripped input, is active and passes the password check |
| Backends.OnlyFirstMatchIsTried | oroshine_app/oroshine_webapp/backends.py:31-40 | the result is the first match exactly when it is active and its password checks, and otherwise None: no later match is tried |
| Backends.InputCaseIgnored | oroshine_app/oroshine_webapp/backends.py:28 | lowercasing the input first gives the same result |
| Backends.GetUser | oroshine_app/oroshine_webapp/backends.py:46-53 | the user with that id, or None exactly when no user has it |
| Backends.UserCanAuthenticate | oroshine_app/oroshine_webapp/backends.py:55-60 | refused exactly when is_active is explicitly False; absent counts as allowed |
| Adapters.UsernameBase | oroshine_app/oroshine_webapp/adapters.py:19-22 | the base is 1 to 20 characters: a prefix of the slug of the non-empty parts, or of "user" when the slug is empty |
| Adapters.UniqueUsername | oroshine_app/oroshine_webapp/adapters.py:18-34 | what `generate_unique_username` returns: the base when free, else the first free numbered candidate, else the time-based fallback; stated by UniqueUsernameSpec and computed by GenerateUniqueUsername |
| Adapters.UniqueUsernameSpec | oroshine_app/oroshine_webapp/adapters.py:24-34 | the generated name is the base followed only by digits, and it is free unless it is the unchecked time-based fallback |
| Adapters.FreeBaseKept | oroshine_app/oroshine_webapp/adapters.py:27-29 | a base that is not taken (case-insensitively) is returned unchanged |
| Adapters.FallbackIsUnchecked | oroshine_app/oroshine_webapp/adapters.py:33-34 | the fallback is not checked, so a taken name can come back |
| Adapters.GenerateUniqueUsername | oroshine_app/oroshine_webapp/adapters.py:18-34 | the loop returns the specified name after at most max_attempts checks, and a taken name only after all of them |
| Adapters.PopulateUsername | oroshine_app/oroshine_webapp/adapters.py:36-43 | only an empty username is filled, from the e-mail's local part, else the first and last names, else "user" |
| Adapters.PopulatedUsernameNonEmpty | oroshine_app/oroshine_webapp/adapters.py:36-43 | a filled-in username is never empty |
| Adapters.SaveUser | oroshine_app/oroshine_webapp/adapters.py:45-54 | the e-mail is lowercased, and the user is saved once exactly when commit is true |
| Adapters.PopulateUser | oroshine_app/oroshine_webapp/adapters.py:72-76 | the e-mail is lowercased and nothing is saved |
| Adapters.CleanUsername | oroshine_app/oroshine_webapp/adapters.py:56-61 | accepted exactly when the parent check accepts and the name has at least 3 characters, unchanged; a short name is refused with its message |
| Adapters.GeneratedNameCanBeTooShort | oroshine_app/oroshine_webapp/adapters.py:19-29 | a free two-letter slug becomes the username although clean_username would refuse it |
| Forms.CleanDate | oroshine_app/oroshine_webapp/forms.py:35-39 | refused exactly when a date is given and is before today, with the past-date message; otherwise it is returned unchanged, a missing date included |
| Forms.NewUserFormSave | oroshine_app/oroshine_webapp/forms.py:17-22 | the cleaned e-mail is copied onto the user, which is saved exactly when commit is true |
| Metrics.EndpointLabel | oroshine_app/oroshine_webapp/metrics.py:204-214 | the grouped endpoint label; stated case by case by EndpointLabelCases |
| Metrics.EndpointLabelCases | oroshine_app/oroshine_webapp/metrics.py:204-214 | an empty path is 'unknown'; '/api/' wins over '/static/', which wins over '/media/'; any other path is its own label |
| Metrics.EndpointLabelIdempotent | oroshine_app/oroshine_webapp/metrics.py:209-214 | every label is its own label, so the grouping is idempotent |
| Metrics.MetricsCall | oroshine_app/oroshine_webapp/metrics.py:193-227 | the downstream response comes back unchanged, and the request counter of (method, label, status) goes up by exactly one |
| Metrics.TrackCeleryTask | oroshine_app/oroshine_webapp/metrics.py:131-143 | the wrapped result or exception comes back unchanged, and the task counter goes up once, under 'success' or 'failure' |

## Left out

- Transport. E-mail and calendar sending, and the rendering of their
  templates, are outcomes only. The Google client is not modelled.
- Celery. Countdowns, backoff, jitter and beat schedules are not
  modelled; a retry is an outcome value with the bound of 3.
- Concurrency. Nothing in the code locks or uses a transaction, so racing
  requests are not modelled.
- Floating point. Prometheus histograms and durations, the
  `get_cache_stats` hit rate and `price_display` are not modelled.
- Redis-pattern operations. `clear_all_appointment_caches`,
  `get_cache_stats` and `get_user_appointments_cached` (ordering and
  limit) are not modelled.
- Presentation helpers. `colored_icon`, `service_display` and the
  contact admin's `mark_as_resolved` are display or timestamp helpers
  outside the modelled core.
- Social login. The Google extra data in `populate_user` (avatar URL,
  verified flag), `pre_social_login` and the `on_commit` dispatch in the
  social adapter are framework callbacks and are not modelled.
- Text.Lower: lowercases ASCII letters only, whereas Python's
  `str.lower()` and the database's case-insensitive match cover all of
  Unicode.
- CacheHelpers.DateText: a date in a key is its day number in decimal,
  not the ISO text `str(date)` gives. Both are injective, which is all the
  key lemmas use.
- CacheHelpers.CachedQuery: keyword arguments are not part of the key,
  as in the code. Arguments are given already as their `str`.
- Admin.AppointmentCount: the HTML escaping that `format_html` applies to
  the ULID is not modelled (a ULID needs none).
- Tasks.ParseDate: only ASCII digits are read as digits, whereas the
  `\d` in Python's `strptime` patterns also matches other Unicode
  decimal digits.
- Tasks.ParseClock: the same restriction to ASCII digits.
- RateLimit.Redis.RunScript: a failing call is modelled as one that did
  not run the script; a script that ran on the server before the reply
  was lost is not modelled.
- Tasks.CalendarEventLength: time zones are not modelled. The event's
  instants are seconds from the start of day 0.
- Adapters.UsernameBase: `slugify` is a parameter, so the model says
  nothing about the characters a slug contains.
- Backends.Authenticate: `check_password` is a parameter. A raised
  exception anywhere in the lookup is one flag that yields None.
- Views.Admit: day numbers are unbounded. On 9999-12-31 at 23:30 or
  later, and on 0001-01-01 before 00:30, the ±30-minute arithmetic at
  views.py:43-45 raises OverflowError outside the view's `try`, so the
  code saves nothing; the model wraps the window and appends the row.
- Views.AppointmentView.Post: the same OverflowError at either end of
  the date range is not modelled; the model saves the row and makes the
  calls.
- Tasks.CalendarStep: for a row on 9999-12-31 at 23:30 or later, the
  end-time arithmetic at tasks.py:245 raises OverflowError into the
  retry; the model inserts the event instead.
- CacheHelpers.WarmCacheForDateRange: with `end_date` on 9999-12-31 the
  day increment at cache_helpers.py:253 raises OverflowError after the
  last write; the model's loop returns normally.
- Records.UserObject: only the fields the adapters and forms touch
  (username, e-mail, first and last name) are modelled, with a save
  counter standing for `user.save()`.
- The test files are not modelled. Several of them refer to names the
  code does not define.
