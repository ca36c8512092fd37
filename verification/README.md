# Scheduling engine of the appointment agent

A Dafny model of the scheduling engine an AI chat agent uses to manage a
business's appointments. The engine answers "is this time bookable?" against
the weekly opening hours and existing bookings, and lists other free times that
day. It also books, cancels and reschedules a contact's appointment and renames
a contact. All of these are exposed to the language model as a fixed catalog of
tools.

Every time is an integer number of minutes. Instants are minutes since
1970-01-01 00:00 UTC. Local times are the business's wall-clock reading of an
instant, written as if it were UTC, so midnight falls on a multiple of 1440 and
the weekday is `(t / 1440 + 4) % 7` with Sunday as 0.

The model has these modules:

- `Wrappers`, `Clock`, `Text`: an option type, day and weekday arithmetic, and
  ASCII lower-casing, case-insensitive name matching and integer rendering.
- `Models`: the records the scheduler reads. Persona hours are a map from
  lower-case weekday name to `{isOpen, open, close}`. Services carry a name and
  an optional duration. Contacts carry a `current` appointment reference. The
  store keeps contacts by phone number and appointments in insertion order; an
  appointment's id is its position. `Env` bundles what lies outside the model:
  the clock, the timezone database, the date-string parser and the date window
  of the store query.
- `Availability`: the availability check. It rejects closed or unlisted days
  and times outside `[open, close)`. It builds busy blocks
  `[start, (end or start + slot length) + buffer)`, sorts them stably by start,
  and tests the candidate's `[s, s + slot length + buffer)` for overlap. Then it
  scans the day from opening time in 30-minute steps. A scan point whose slot
  plus buffer overlaps a busy block jumps to the end of the earliest-starting
  block it overlaps. Free future points that leave room for a slot before
  closing are listed, and the first eight are kept. The scan is a recursive function with
  `decreases close - t`. It terminates because a conflict end always lies
  strictly after the scan point.
- `Operations`: booking, cancelling, rescheduling and renaming as pure functions
  from a store to a new store and a reply. Failures are replies, not
  exceptions.
- `Tools`: the tool catalog, the closed set of tool calls, decoding a call from
  its name and arguments, and dispatch to the operations.
- `Lifecycle`: how operations compose: book then cancel, book then reschedule,
  cancel twice, and cancelling does not free the slot.
- `Scenarios`: concrete examples, such as a Monday 09:00–17:00 business five
  hours behind UTC.

Behaviour kept exactly as the code has it, including choices a reader might not expect:

- The configured slot length and buffer are read with `||`, so a configured 0
  becomes 30 or 5 (`Availability.ZeroSettingsMeanDefaults`).
- The scan's fit-before-close test uses the slot length without the buffer. The
  overlap test does include the buffer.
- The scan does not stop at eight slots. It collects every slot and keeps the
  first eight. The result is the same.
- The store query filters by date only, not by status or owner. A cancelled
  appointment still blocks its time, so cancelling never frees a slot
  (`Lifecycle.CancelDoesNotFreeSlot`).
- Rescheduling keeps the stored length, or 30 minutes when there is no end,
  rather than the persona's default. It does not touch the contact.
- A booking takes the duration of the first service whose name matches ignoring
  case. If that service has no duration, the default applies, even when a later
  match has one.
- Renaming reports success even when no contact has that phone number.

## Model

| member | source | states |
|---|---|---|
| Availability.CheckAvailability | src/services/agents/schedulerAgent.js:189-319 | fails exactly when the zone is unknown or the date unreadable; otherwise the candidate is free iff its day is open, it lies in `[open, close)` and no found appointment's busy block (end or start+slot length, plus buffer) overlaps `[c, c+slot+buffer)`, and busy iff some block overlaps |
| Availability.Decide | src/services/agents/schedulerAgent.js:216-314 | closed iff the weekday is unlisted or not open (naming the day); outside hours iff open but before opening or at/after closing; busy/free iff some/no block overlaps; the listed slots satisfy `GoodSlots` |
| Availability.OrDefault | src/services/agents/schedulerAgent.js:237-238 | with a non-zero fallback the setting in effect is never zero, so a configured 0 never reaches the check; a non-zero configured value is kept, anything else gives the fallback |
| Availability.SortByStart | src/services/agents/schedulerAgent.js:265 | the result is ordered by start and is a permutation of the input |
| Availability.ConflictEnd | src/services/agents/schedulerAgent.js:251-273 | None iff no block overlaps; otherwise the end of the first overlapping block in list order, which is strictly after the slot start |
| Availability.ConflictEndIsEarliest | src/services/agents/schedulerAgent.js:265-270 | after sorting, the conflict end belongs to an overlapping block whose start is no later than that of any other overlapping block |
| Availability.Scan | src/services/agents/schedulerAgent.js:276-296 | every listed point lies in `[t, close)`, strictly after now, leaves room for a slot before closing, and is conflict-free; the list is strictly ascending; the recursion terminates on `close - t` |
| Availability.ScanOnEmptyDay | src/services/agents/schedulerAgent.js:277-296 | with no appointments, a point is listed iff it is on the 30-minute grid from `t`, before closing, after now, and a slot fits before closing |
| Availability.ScanIgnoresOtherDays | src/services/agents/schedulerAgent.js:279-296 | blocks that end by the scan start or start at or after closing plus slot and buffer (such as the neighbouring days' appointments the query returns) leave the listed slots exactly as on an empty day |
| Availability.ListedSlotsAreGood | src/services/agents/schedulerAgent.js:277-300 | the kept slots number at most eight, are strictly ascending (hence duplicate-free), and each is future, within hours, fits before closing and is conflict-free against the unsorted blocks |
| Availability.Take | src/services/agents/schedulerAgent.js:298-300 | keeps a prefix of the list: all of it when it has at most eight elements, and exactly eight otherwise |
| Availability.OnlyTimesMatter | src/services/agents/schedulerAgent.js:247-249 | two appointment lists that agree on starts and ends give the same answer whatever their status, owner or contact |
| Availability.ZeroSettingsMeanDefaults | src/services/agents/schedulerAgent.js:237-238 | configuring 0 for slot length and buffer gives the same answers as configuring 30 and 5 |
| Availability.BoundariesAreHalfOpen | src/services/agents/schedulerAgent.js:268 | a block ending exactly at the candidate or starting exactly at its slot+buffer end leaves it free; one starting a minute earlier makes it busy |
| Availability.OpeningMinuteInClosingMinuteOut | src/services/agents/schedulerAgent.js:233-235 | on an open day the opening minute is not rejected as outside hours, and the closing minute is |
| Clock.DayStart | src/services/agents/schedulerAgent.js:227-231 | midnight of the day lies at or before the time and less than a day before, on a day boundary |
| Clock.WeekdayFollowsCalendar | src/services/agents/schedulerAgent.js:216 | day 0 of the epoch is a Thursday, each next day is the next weekday, the weekday depends only on the day, and it repeats every seven days |
| Text.Lower | src/services/agents/schedulerAgent.js:331-333 | lower-casing keeps the length and maps each character by ASCII lower-casing |
| Text.LowerIdempotent | src/services/agents/schedulerAgent.js:331-333 | lower-casing twice equals lower-casing once, so every name matches its lower-case form |
| Operations.FindService | src/services/agents/schedulerAgent.js:331-333 | returns the first service whose name matches ignoring case, and None only when no service matches |
| Operations.Message | src/services/agents/schedulerAgent.js:179-425 | the reply texts of the operations (lines 179, 220, 234, 305, 312, 317, 368, 371, 379, 392, 403, 422, 425): a text opens with "Failed" exactly for an unmade check, an unstored booking or an unstored rescheduling, and with "No active appointment found to" exactly for the two refusals for want of an active appointment |
| Text.NatToString | src/services/agents/schedulerAgent.js:368 | the duration in the booking confirmation is rendered as decimal digits, with no leading zero, whose value is the number itself |
| Operations.BookingDuration | src/services/agents/schedulerAgent.js:328-337 | the default applies for an empty service name or no match; for a non-empty name, the first case-insensitive match decides: its non-zero duration, else the default, even when a later match has one |
| Operations.Book | src/services/agents/schedulerAgent.js:321-373 | missing contact or unreadable date: failure, store unchanged; else one confirmed appointment appended under the next id, with end = start + resolved duration, service name or 'General', the given notes, and the contact's reference set to it; nothing else changes |
| Operations.Cancel | src/services/agents/schedulerAgent.js:375-397 | without an active appointment: soft message, store unchanged; else status cancelled, `Cancelled: <reason or 'User request'>` appended after a vertical-bar separator when notes exist, the contact's reference cleared; nothing else changes |
| Operations.Reschedule | src/services/agents/schedulerAgent.js:399-427 | without an active appointment: soft message, unchanged; unreadable date: failure, unchanged; else the start moves, the length (end − start, or 30 without an end) is kept, status is confirmed, and contacts are untouched |
| Operations.UpdateContactName | src/services/agents/schedulerAgent.js:177-180 | the reply is always success; the contact under the phone number gets the new name if it exists; nothing else changes |
| Tools.SpecNamed | src/services/agents/schedulerAgent.js:96-163 | finds the catalog entry declared under a name, or reports that none is |
| Tools.Decode | src/services/agents/schedulerAgent.js:171-184 | decodes a call iff the name is a catalog tool and every required argument is present; the decoded call carries that name and exactly the sent values of its tool's declared arguments, ignoring any other key |
| Tools.CallsConformToCatalog | src/services/agents/schedulerAgent.js:96-163 | every call names a declared tool, sends all required and only declared arguments, and decodes back to itself |
| Tools.CatalogIsWellFormed | src/services/agents/schedulerAgent.js:96-163 | tool names are distinct and every required argument is declared |
| Tools.InWindow | src/services/agents/schedulerAgent.js:247-249 | an appointment is returned iff it is stored and its start lies in the window, whatever its status |
| Tools.Dispatch | src/services/agents/schedulerAgent.js:171-184 | an availability call leaves the store unchanged and answers the check on the queried appointments; booking, renaming, cancelling and rescheduling each reach their own operation for the conversation's phone number; no call adds or removes a contact or touches any contact other than the conversation's; every call keeps the store consistent |
| Lifecycle.BookThenCancel | src/services/agents/schedulerAgent.js:375-392 | after a successful booking, cancelling succeeds, clears the contact's reference, marks the new appointment cancelled and leaves older ones alone |
| Lifecycle.BookThenReschedule | src/services/agents/schedulerAgent.js:409-420 | after a successful booking, rescheduling keeps the booked duration, confirms, and keeps the contact's reference |
| Lifecycle.CancelTwice | src/services/agents/schedulerAgent.js:377-380 | a second cancel finds nothing to cancel and changes nothing |
| Lifecycle.WindowKeepsSameTimes | src/services/agents/schedulerAgent.js:247-249 | the date query over two stores that agree on appointment times returns lists that agree on times |
| Lifecycle.CancelDoesNotFreeSlot | src/services/agents/schedulerAgent.js:385-390 | every availability answer is the same before and after a cancellation |
| Scenarios.EmptyMondayNineIsFree | src/services/agents/schedulerAgent.js:310-314 | 09:00 local on a Monday with no appointments is reported free |
| Scenarios.BookMondayNine | src/services/agents/schedulerAgent.js:339-356 | booking that 09:00 with no service name stores a confirmed 30-minute "General" appointment and makes it the customer's active one |
| Scenarios.BookedSlotBlocksTenPastNine | src/services/agents/schedulerAgent.js:251-273 | with 09:00 booked, 09:10 is busy, inside the booked slot plus its buffer |
| Scenarios.ServiceNameMatchesIgnoringCase | src/services/agents/schedulerAgent.js:330-336 | "haircut" matches the service "Haircut" and books its 45 minutes |
| Scenarios.ServiceWithoutDurationUsesDefault | src/services/agents/schedulerAgent.js:334-336 | a matching service without a duration books the default 30 minutes |
| Scenarios.SundayIsClosed | src/services/agents/schedulerAgent.js:218-221 | a Sunday marked closed is reported closed on "sunday" with no slot list, in the words "We are closed on sundays." |
| Scenarios.CancelWithoutAppointment | src/services/agents/schedulerAgent.js:377-380 | cancelling with no active appointment replies "No active appointment found to cancel." and changes nothing |
| Scenarios.UnknownZoneFails | src/services/agents/schedulerAgent.js:315-318 | an unknown timezone name yields the failed-check answer |

## Left out

- Timezone conversion (the formatter-based shift, including daylight saving) is a foreign library call. It is the `Env.zones` parameter: a zone name maps to a shift function, or to None for an unknown name.
- Parsing date strings is a foreign call. It is the `Env.parseDate` parameter: None stands for an invalid date. Such a date makes the check fail, and makes booking and rescheduling fail because the save rejects it.
- Computing the store query's window from the server's local calendar (one day either side) is the `Env.queryWindow` parameter. The current clock is `Env.now`.
- Times are whole minutes. The seconds that the shift keeps, and fractional minutes in a stored length, are not modelled.
- Schedule times are given as an hour and a minute. Splitting the "HH:MM" strings, and how malformed strings behave, are not modelled.
- Rendering slots as "h:mm AM" strings, and the set-based de-duplication of those strings, are not modelled. Slots are minute values. The slot list is proved strictly ascending, so de-duplicating minute values would change nothing.
- JSON serialisation of tool results and the slot-list sentences are not modelled. `Operations.Message` gives each reply's message, but without the opening hours inside the outside-hours message.
- Booking notifications and the server-sent-event broadcast are not modelled. They are global mutable state and network writes.
- The system-prompt text is not modelled. It is opaque templating.
- The model-service wrapper (`src/services/openaiService.js`) is not modelled. It performs exactly one tool round, so there is no multi-round orchestration loop to model. Its own availability and booking helpers are exact-match database wrappers.
- Controllers, routes, the server, Firebase, the response middleware and the password-hash script are not modelled. The stored-schema files serve only as references for the datatypes.
- Repository I/O failures are not modelled. These are every catch branch beyond the invalid-date failures: in the availability check (a failed appointment query, lines 247 and 315-318), and in booking, cancelling and rescheduling. The "Appointment not found." branches are also left out. The earlier populate already turns a dangling reference into "no active appointment", so the second lookup can miss only under concurrent deletion.
- The race between checking and booking from concurrent conversations is not modelled. This is concurrency, and the code has no locking to model.
- Operations.Book: a failure after the appointment is saved (saving the contact's reference, creating the notification, or the event broadcast, lines 355-366) makes the source reply "Failed to book appointment. Please try again." while the appointment, and possibly the contact's reference, are already stored. The model's booking always succeeds once the contact and date are valid, so it never returns that failure with a changed store.
- Tools.Decode: it rejects a call that lacks a required argument. The source would pass `undefined` on to the operation.
- Text.Lower: it lower-cases ASCII letters only, not the full Unicode case mapping of `toLowerCase`.
- Operations.FindService: a service without a name, which makes the source's lookup throw, cannot occur, because names are always strings.
- Availability.Scan: its contract gives soundness and ordering for every listed point. It does not pin down which free points get listed when there are appointments. `Availability.ScanOnEmptyDay` gives the exact list for a day with no appointments, and `Availability.ScanIgnoresOtherDays` extends it to a day whose appointments all lie outside the scanned hours.
