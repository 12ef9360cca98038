# Counsel-Connect booking and messaging core, in Dafny

Counsel-Connect is a counselling marketplace. This project models its core:

- Clients book a counselor's published time slots.
- The two of them talk in a chat room that is created on the first booking or message.
- Counselors see dashboards and client lists built from those bookings.

The model covers these parts of the system:

- **One shared store of collections** (`Store.Db`): users, counselors, client profiles, bookings, chat rooms, messages and appointments. Each collection is kept in insertion order, and fresh ids come from a counter.
- **Day matching.** Booking days are matched through the day label `formatDate` (Today / Tomorrow / a full date), compared as an injective label on calendar days.
- **The four booking paths, each with its own collision rule:**
  - the slot validation route;
  - the booking POST;
  - the Stripe webhook;
  - the appointments route.
  
  The differences between the rules are stated as lemmas. The validation route and the booking POST query their collision over the day range as written (`Conflicts.AsWritten`, which misses the day's last millisecond). The handler models use that range. The whole-day range the code means (`Conflicts.WholeDay`) is kept beside it for the Findings row.
- **Other routes:**
  - the schedule routes and the schedule editor page;
  - the message, read, chat-list, dashboard, client-list and recommendation routes.
- **Client-side logic:**
  - the two appointments pages (partition, sort order, colours, buttons);
  - the counselor search filter;
  - the counselor application wizard;
  - the page middleware.

Conventions used throughout:

- Time is an integer count of milliseconds in local time.
- "now" is always a parameter.
- Money, ratings and scores are reals.
- The authenticated caller is an `Option<Id>` input. Routes that read `token.id` and routes that read `token.userId` take separate inputs, as the handlers do.
- Every handler returns `Response<T>`, which is `Ok(body)` or `Err(status)` with status 400, 401, 403, 404 or 500 as the handler writes them.

Three store-writing handlers have two parts, a pure function that decides the response and a method with `modifies db` that performs the writes that function describes:

- `Bookings.CheckBookingPost` and `Bookings.PostBooking`;
- `AppointmentsRoute.CheckAppointmentPost` and `AppointmentsRoute.PostAppointment`;
- `Webhook.Gate`, `Webhook.Reply` and `Webhook.HandleWebhook`.

The other store-writing handlers (`Bookings.PutBooking`, `Messages.PostMessage`, `Messages.MarkReadRoute`, `ScheduleRoute.PostSchedule`, `ScheduleRoute.PutSchedule`, `AppointmentsRoute.PutAppointment`) decide their response inside the method, and their `ensures` clauses state which inputs give which response and what the store becomes.

Pure read-side code (listings, projections, labels) is written as functions with lemmas. Client components whose state changes are classes:

- the schedule editor (`ScheduleEditor`);
- the counselor's booking list (`BookingList`);
- the wizard (`Wizard`).

## Model

| member | source | states |
|---|---|---|
| DateUtil.StartOfDay | lib/utils.ts:23-26 | `setHours(0,0,0,0)`: the day's midnight is at or before the instant, less than a day earlier, on the same calendar day |
| DateUtil.EndOfDay | app/api/bookings/route.ts:67 | `setHours(23,59,59,999)` is the day's last millisecond, on the same day, not before the instant |
| DateUtil.HourOf | app/dashboard/schedule/page.tsx:41 | the hour of the day is below 24 and the instant lies within that hour |
| DateUtil.FormatDate | lib/utils.ts:9-21 | "Today" exactly for instants on today's calendar day; "Tomorrow" exactly for the next; the full-date label only for other days |
| DateUtil.LabelsMatchIffSameDay | lib/utils.ts:9-21 | for any fixed now, two instants get the same label iff they fall on the same calendar day |
| DateUtil.CalendarLabelIsOtherDay | lib/utils.ts:20 | a day that is neither today nor tomorrow gets the full-date label naming that day |
| DateUtil.DisabledIffEarlierDay | lib/utils.ts:23-27 | a date is disabled iff its calendar day is before today, so every time today is allowed |
| DateUtil.DisabledMonotone | lib/utils.ts:23-27 | any date earlier than a disabled date is disabled |
| DateUtil.DayOfWindow | lib/utils.ts:12-18 | an instant is on a midnight's day iff it lies in the 24 hours that follow that midnight |
| Text.LowerStr | app/counselors/components/counselor-list.tsx:127-140 | `toLowerCase` restricted to ASCII: keeps the length, maps 'A'..'Z' to 'a'..'z' and leaves every other character alone |
| Text.LowerStrIdempotent | app/counselors/components/counselor-list.tsx:127-140 | lower-casing twice is lower-casing once |
| Text.IncludesAt | app/counselors/components/counselor-list.tsx:130-139 | `includes` holds iff the term occurs at some position of the string |
| Text.Split | app/api/bookings/route.ts:35 | `split` always gives at least one piece |
| Text.SplitNoSeparator | app/api/bookings/route.ts:35 | a string without the separator splits into itself alone |
| Text.SplitPair | app/api/bookings/route.ts:35 | "a-b" with no separator inside a or b splits into exactly [a, b] |
| Text.SplitPieces | app/api/bookings/route.ts:35 | the first piece is a separator-free prefix; a second piece exists iff the separator occurs, and it is separator-free and follows the first separator |
| Text.ParseInt | app/appointments/page.tsx:65-66 | `parseInt` is NaN (None) exactly for an empty string or one not starting with a digit, and is non-negative otherwise |
| Text.ParsePadded | app/dashboard/schedule/page.tsx:107 | parsing a zero-padded hour label gives back the number |
| Text.PadStart2 | app/dashboard/schedule/page.tsx:60-61 | `padStart(2, "0")` pads a one-digit number to two characters and leaves longer ones alone |
| Sorting.SortBy | app/api/bookings/route.ts:140 | the result is ordered by the key and is a permutation of the input |
| Sorting.SortedMembers | app/api/bookings/route.ts:140 | an element is in the sorted list iff it is in the input |
| Sorting.SortedFilter | app/api/bookings/route.ts:136-140 | a filtered-then-sorted list holds as many elements as pass the filter, each from the input and passing it, and every passing one |
| Sorting.SortedPrefix | app/api/counselors/recommended/route.ts:19-21 | the first n after a sort are in key order, taken from the input, and none left out orders before one kept |
| Sorting.SortedFilterPrefix | app/api/bookings/route.ts:136-141 | `find(p).sort(key).limit(n)`: in key order, each from the input and passing p, min(n, count) of them, and no passing element left out orders before one kept |
| Store.FindCounselor | app/api/bookings/validate/route.ts:22-30 | the counselor found has the requested user id; none is found iff no counselor has it |
| Store.CounselorIndex | app/api/counselor/schedule/route.ts:112-121 | the first position holding that user id, or none when no counselor has it |
| Store.FindBy | app/api/chats/route.ts:52 | `findById` / `findOne` on one key field (users by id, client profiles by user id, rooms by id): the record found has that key; none iff no record has it |
| Store.ClientIds | app/api/clients/route.ts:22 | one client id per booking, in order |
| Store.FindRoomForPair | app/api/bookings/route.ts:93-99 | the room found joins the two users in either slot order; none iff no room does |
| Store.PairLookupSymmetric | app/api/bookings/route.ts:95-98 | looking a pair up in either order finds the same room |
| Store.UpsertRoom | app/api/bookings/route.ts:93-108 | an existing room for the pair is returned and nothing changes; otherwise exactly one room {user1: caller, user2: counselor} is appended |
| Store.UpsertKeepsPairUnique | app/api/bookings/route.ts:93-108 | the upsert keeps at most one room per unordered pair |
| Store.UpsertIdempotent | app/api/bookings/route.ts:93-108 | repeating the upsert for the pair, in either order, changes nothing and returns the same room id |
| Store.FirstPairRoomAfterAppend | app/api/bookings/route.ts:93-108 | after a room for a pair without one is appended, the lookup finds that room |
| Store.AppendFreshBooking | app/api/bookings/route.ts:81-90 | a booking stored under the next id keeps booking ids distinct |
| Store.UpsertFreshRoom | app/api/bookings/route.ts:93-108 | an upsert under the next id keeps room ids distinct |
| Store.AppendFreshMessage | app/api/messages/route.ts:39-46 | a message stored under the next id keeps message ids distinct |
| Store.AppendFreshAppointment | app/api/appointments/route.ts:51-58 | an appointment stored under the next id keeps appointment ids distinct |
| Store.Db.constructor | app/api/bookings/route.ts:30 | an empty store over the given users, counselors and profiles |
| Store.Db.NewId | app/api/bookings/route.ts:81 | a fresh ObjectId distinct from every id in use |
| Store.Db.AddBooking | app/api/bookings/route.ts:81-90 | `Booking.create`: the booking is stored under a fresh id, appended after every earlier one |
| Store.Db.UpsertPairRoom | app/api/bookings/route.ts:93-108 | the new room list and returned id are those of the pair upsert over the old rooms, with a fresh id for a created room |
| Availability.FindDayEntry | app/api/bookings/validate/route.ts:37-38 | the FIRST entry whose day label equals the requested day's; a day-less entry met first throws; otherwise no entry |
| Availability.FindDayEntryFrom | app/api/bookings/validate/route.ts:37-38 | the same scan started at a given position |
| Availability.CheckMembership | app/api/bookings/validate/route.ts:37-49 | a slot is listed iff the first entry for the day publishes exactly that start and end string |
| Availability.UniqueFirstMatch | app/api/bookings/validate/route.ts:38 | only one position can be the first entry for the day |
| Availability.LaterEntryIgnored | app/api/bookings/validate/route.ts:37-42 | a slot published only by a second entry for the same day is not bookable |
| Availability.NoSubSlot | app/api/bookings/validate/route.ts:39-42 | ("09:00","09:30") is rejected against a published ("09:00","10:00") |
| Availability.SplitTimeSlot | app/api/bookings/route.ts:35 | the start is a dash-free prefix of the slot string; the end is undefined exactly when there is no '-', and otherwise is dash-free and follows the first '-' |
| Availability.SplitWellFormed | app/api/bookings/route.ts:35 | a well-formed "HH:MM-HH:MM" splits into exactly its two times |
| Availability.SplitWithoutDash | app/api/bookings/route.ts:35 | without a '-' the end is undefined and no slot is listed |
| Conflicts.InDayRangeIffSameDay | app/api/bookings/validate/route.ts:54-57 | the whole-day range (`WholeDay`, the range the handlers mean) is exactly "on the requested calendar day" |
| Conflicts.RangesDifferOnlyAtEndOfDay | app/api/bookings/route.ts:65-68 | the range as written (`AsWritten`, `$lt` the day's last millisecond) equals the day minus its last millisecond |
| Conflicts.EndOfDayInvisible | app/api/bookings/route.ts:63-71 | over the range as written, a booking dated at the day's last millisecond changes neither the POST's nor validation's collision |
| Conflicts.CancelledNeverBlocksValidation | app/api/bookings/validate/route.ts:60 | over either range, adding a cancelled booking never changes the validation collision |
| Conflicts.AnySameSlotBlocksPost | app/api/bookings/route.ts:63-78 | any booking on the slot inside the query's range, cancelled or not, blocks the booking POST |
| Conflicts.PostStricterThanValidation | app/api/bookings/route.ts:63-71 | over the same range, a validation collision is a POST collision; they differ only when every same-slot booking is cancelled |
| Conflicts.AppointmentIgnoresEndTime | app/api/appointments/route.ts:36-41 | the booking rules tell two end times apart, which the appointment rule never consults |
| Conflicts.AppointmentNeedsIdenticalDate | app/api/appointments/route.ts:36-41 | a confirmed appointment one millisecond later on the same day and start does not conflict |
| Validate.ValidateSlot | app/api/bookings/validate/route.ts:14-74 | with the range as written it is the handler: 401 iff no `token.userId`; then 404 iff the counselor is unknown; success iff the slot is listed and no non-cancelled booking in the `$gte`/`$lt` range holds it |
| Validate.CheckOrder | app/api/bookings/validate/route.ts:22-68 | with a slot that is not listed, the verdict is an error whatever the bookings are |
| Validate.LiveBookingRejected | app/api/bookings/validate/route.ts:52-68 | a listed slot held by a non-cancelled booking of the counselor on that day gives 400; as written, only when that booking is not dated at the day's last millisecond |
| Validate.EndOfDayBookingIgnored | app/api/bookings/validate/route.ts:52-61 | as written, a booking dated at the day's last millisecond (where the booking POST stores its date) never changes the verdict |
| Validate.CancelledIgnored | app/api/bookings/validate/route.ts:60 | adding a cancelled booking never changes the verdict |
| Bookings.CheckBookingPost | app/api/bookings/route.ts:26-78 | 401 iff no `token.id`; a missing `timeSlot` is 500; 404 iff the counselor is unknown; success iff listed and no booking of any status holds the slot |
| Bookings.PostedBooking | app/api/bookings/route.ts:81-90 | the stored booking has the caller as client, status "scheduled", amount = the counselor's `workPreferences.hourlyRate`, and a date on the requested day |
| Bookings.PostBooking | app/api/bookings/route.ts:19-113 | with the collision query as written: on success exactly one booking is appended under a fresh id and the pair's room is upserted; on error nothing changes |
| Bookings.RepeatPostRejected | app/api/bookings/route.ts:63-90 | over the whole requested day, after a successful POST the identical request is refused with 400 |
| Bookings.RepeatPostAcceptedAsWritten | app/api/bookings/route.ts:63-90 | as written, after a successful POST the identical request passes the checks again, so a second booking of the slot is stored |
| Bookings.PostedBookingMissedAsWritten | app/api/bookings/route.ts:63-90 | over the range as written, the booking the POST stores does not block the identical request |
| Bookings.CancelledBlocksPost | app/api/bookings/route.ts:63-78 | a cancelled booking on the slot still makes the POST refuse with 400 |
| Bookings.GetBookings | app/api/bookings/route.ts:129-145 | 401 iff no `token.id`; otherwise the first min(5, count) of the caller's scheduled bookings as counselor in (date, startTime) order: no such booking left out orders before one returned |
| Bookings.BookingIndex | app/api/bookings/route.ts:168 | the position of a booking with that id; none iff no booking has it |
| Bookings.SetBookingStatus | app/api/bookings/route.ts:168-179 | none iff the id is absent; otherwise same length, and the returned booking has that id and the new status |
| Bookings.SetStatusChangesOnlyTarget | app/api/bookings/route.ts:168-172 | every other booking is unchanged, and the target changes only in its status |
| Bookings.AnyTransitionAllowed | app/api/bookings/route.ts:166-172 | any status may replace any other, with no transition or ownership check |
| Bookings.PutBooking | app/api/bookings/route.ts:155-181 | 401 without `token.userId`; 404 for an absent id with nothing changed; otherwise the overwrite |
| Bookings.SameIdsAfterStatus | app/api/bookings/route.ts:168-172 | a status overwrite keeps booking ids distinct |
| Webhook.BuildMetadata | app/api/checkout_session/route.ts:42-48 | the metadata carries the slot, the caller and the counselor unchanged |
| Webhook.AmountFromCents | app/api/webhooks/stripe/route.ts:57 | `amount_total / 100`, or 0 when absent |
| Webhook.PaidBooking | app/api/webhooks/stripe/route.ts:44-60 | the booking has the metadata's client, counselor and date, the split slot, status "scheduled", payment "paid" and the payment intent |
| Webhook.Gate | app/api/webhooks/stripe/route.ts:16-39 | no signature and failed verification are told apart; a completed checkout books iff it has metadata; every other event is ignored |
| Webhook.Reply | app/api/webhooks/stripe/route.ts:16-87 | 400 for a signature failure, 500 for missing metadata, `{received: true}` otherwise |
| Webhook.HandleWebhook | app/api/webhooks/stripe/route.ts:8-89 | only a completed, signed checkout with metadata appends a booking and upserts the room, with no membership or collision check |
| Webhook.MetadataRoundTrip | app/api/webhooks/stripe/route.ts:44-45 | a well-formed "S-E" carried through checkout metadata is split back into S and E |
| Webhook.ReplayBooksTwice | app/api/webhooks/stripe/route.ts:48-78 | a replayed event stores the same booking again under a new id while the room upsert changes nothing |
| Webhook.CentsToDollars | app/api/webhooks/stripe/route.ts:57 | 2500 cents is 25 dollars; 0 or absent is 0 |
| AppointmentsRoute.CheckAppointmentPost | app/api/appointments/route.ts:15-48 | 401 iff no `token.userId`; 404 iff the counselor is unknown; success iff no CONFIRMED appointment has that counselor, the identical date and start |
| AppointmentsRoute.NewAppointment | app/api/appointments/route.ts:51-58 | the caller as client, the request's counselor, date and times, status CONFIRMED |
| AppointmentsRoute.PostAppointment | app/api/appointments/route.ts:8-60 | one CONFIRMED appointment appended on success; nothing changes on error |
| AppointmentsRoute.RepeatAppointmentRejected | app/api/appointments/route.ts:36-48 | once an appointment is confirmed, the identical request is refused with 400 |
| AppointmentsRoute.UnconfirmedNeverBlocks | app/api/appointments/route.ts:40 | an appointment that is not CONFIRMED never changes the conflict test |
| AppointmentsRoute.GetAppointments | app/api/appointments/route.ts:77-98 | 401 iff no `token.userId`; otherwise every appointment on the caller's side, in (date, startTime) order |
| AppointmentsRoute.OtherRolesAreClientSide | app/api/appointments/route.ts:89-91 | any role other than "counselor", or none, lists the client side |
| AppointmentsRoute.PartyIndex | app/api/appointments/route.ts:122-129 | the position of an appointment with that id where the caller is client or counselor; none iff there is none |
| AppointmentsRoute.PutAppointment | app/api/appointments/route.ts:108-146 | 401 without `session.user`; 404 with nothing changed for a non-party or a missing id; otherwise exactly that appointment's status and notes change |
| AppointmentsRoute.NonPartyNotFound | app/api/appointments/route.ts:122-144 | a caller who is party to no appointment with that id gets 404, even when the id exists |
| ScheduleRoute.ToSlots | app/api/counselor/schedule/route.ts:28-31 | the slots keep only start and end, one per submitted slot, in order |
| ScheduleRoute.PostAvailability | app/api/counselor/schedule/route.ts:26-32 | defined iff every schedule has `timeSlots`; one entry per schedule in order, with day = `schedule.date` |
| ScheduleRoute.PutAvailability | app/api/counselor/schedule/route.ts:103-109 | defined iff every schedule has `slots`; one entry per schedule in order, with day = `schedule.day` |
| ScheduleRoute.PagePayloadBreaksPut | app/api/counselor/schedule/route.ts:103-106 | the page's `{date, timeSlots}` payload makes the PUT throw iff it is non-empty |
| ScheduleRoute.PagePayloadFitsPost | app/api/counselor/schedule/route.ts:26-32 | the same payload is accepted by POST, with each entry's day the schedule's date |
| ScheduleRoute.DuplicateDaysKept | app/api/counselor/schedule/route.ts:26-32 | two schedules for the same day give two entries |
| ScheduleRoute.UpsertedCounselor | app/api/counselor/schedule/route.ts:22-37 | the upserted counselor has the caller's id and the written availability and rate |
| ScheduleRoute.PostSchedule | app/api/counselor/schedule/route.ts:7-39 | 401 without a session; 500 when `schedules` is missing or malformed; it succeeds exactly when neither applies, and then the top-level fields are replaced and the counselor is created if absent |
| ScheduleRoute.GetSchedule | app/api/counselor/schedule/route.ts:49-74 | 401 without a session; 404 iff there is no counselor record; otherwise the top-level availability and rate |
| ScheduleRoute.PostThenGet | app/api/counselor/schedule/route.ts:22-37 | what the POST wrote is what the GET reads back |
| ScheduleRoute.SameUserIdsSameIndex | app/api/counselor/schedule/route.ts:112-121 | lookups by user id see through updates that keep every user id |
| ScheduleRoute.PutSchedule | app/api/counselor/schedule/route.ts:84-133 | 401, 500 or 404 (no upsert) as the handler writes them; it succeeds exactly when a session, well-formed `slots` schedules and a counselor record are all present, and then only `workPreferences` changes, so GET's answer is unchanged |
| SchedulePage.HourLabel | app/dashboard/schedule/page.tsx:60-61 | the label ends in ":00" |
| SchedulePage.HourLabelRoundTrip | app/dashboard/schedule/page.tsx:107 | parsing the hour back out of a label gives the hour |
| SchedulePage.DefaultStartHour | app/dashboard/schedule/page.tsx:41-44 | on today, after the current hour and at least 9; on any other day, 9 |
| SchedulePage.SlotAt | app/dashboard/schedule/page.tsx:58-62 | the slot's start label reads back as hour H and its end label as H + 1 |
| SchedulePage.NewSlot | app/dashboard/schedule/page.tsx:58-62 | the new slot is [H:00, (H+1):00] for the default start hour H |
| SchedulePage.AddTimeSlot | app/dashboard/schedule/page.tsx:46-82 | appends the slot to every schedule of that day when one exists, or appends one new schedule; other days are untouched |
| SchedulePage.AddKeepsOnePerDay | app/dashboard/schedule/page.tsx:46-82 | adding keeps at most one schedule per calendar day and leaves other days unchanged |
| SchedulePage.AddUpdatesOneSchedule | app/dashboard/schedule/page.tsx:51-66 | with one schedule per day, only that day's schedule changes, and it gains exactly the new slot |
| SchedulePage.AddCountsOneSlot | app/dashboard/schedule/page.tsx:46-82 | adding adds exactly one slot in total |
| SchedulePage.TotalSlotsAppend | app/dashboard/schedule/page.tsx:69-81 | the slot total of an appended schedule adds up |
| SchedulePage.TotalSlotsUpdate | app/dashboard/schedule/page.tsx:52-66 | replacing one schedule changes the total by the difference in its slots |
| SchedulePage.WithoutSlot | app/dashboard/schedule/page.tsx:91 | exactly the slots with another id, in order |
| SchedulePage.RemoveTimeSlot | app/dashboard/schedule/page.tsx:85-96 | other days are unchanged; the day's schedules lose only that slot and stay even when empty |
| SchedulePage.RemoveKeepsOnePerDay | app/dashboard/schedule/page.tsx:85-96 | removal keeps at most one schedule per day |
| SchedulePage.RemoveAbsentIsNoop | app/dashboard/schedule/page.tsx:91 | removing an id that is not there changes nothing |
| SchedulePage.SetSlotField | app/dashboard/schedule/page.tsx:123-125 | exactly the slots with that id get the field set; nothing else changes |
| SchedulePage.UpdateTimeSlot | app/dashboard/schedule/page.tsx:98-130 | a no-op when the date is today and the hour is not after the current one; otherwise one field of that id's slots on that day changes |
| SchedulePage.GuardIgnoresField | app/dashboard/schedule/page.tsx:105-116 | the guard refuses start and end fields alike |
| SchedulePage.EndBeforeStartAccepted | app/dashboard/schedule/page.tsx:118-129 | on a later day an end before the start is stored |
| SchedulePage.EndOptionsAfterStart | app/dashboard/schedule/page.tsx:313-317 | end option i is disabled iff i is at or before the start's hour |
| SchedulePage.SelectedSchedule | app/dashboard/schedule/page.tsx:132-134 | a schedule on the selected day with no earlier schedule on that day; none iff there is none or no date is selected |
| SchedulePage.AddedSlotSelected | app/dashboard/schedule/page.tsx:46-82 | a slot just added for a day is visible through `selectedSchedule` |
| SchedulePage.SelectedHasAllOfDay | app/dashboard/schedule/page.tsx:132-134 | when every schedule of the day holds a slot, the selected one does |
| SchedulePage.ScheduleEditor.constructor | app/dashboard/schedule/page.tsx:36-37 | no schedules, rate "50" |
| SchedulePage.ScheduleEditor.AddSlot | app/dashboard/schedule/page.tsx:40-83 | the state becomes `addTimeSlot` of the old state, and one schedule per day is kept |
| SchedulePage.ScheduleEditor.RemoveSlot | app/dashboard/schedule/page.tsx:85-96 | the state becomes `removeTimeSlot` of the old state |
| SchedulePage.ScheduleEditor.UpdateSlot | app/dashboard/schedule/page.tsx:98-130 | the state becomes `updateTimeSlot` of the old state |
| Messages.RoomForSend | app/api/messages/route.ts:21-35 | the pair's room when one exists, in either order; otherwise one room is created with sender in user1 and the content as last message |
| Messages.RepeatedSendsShareRoom | app/api/messages/route.ts:21-35 | a second send between the same users, in either direction, reuses the room |
| Messages.TouchRoom | app/api/messages/route.ts:49-52 | only the room with that id has its last message and date replaced |
| Messages.TouchKeepsPairLookup | app/api/messages/route.ts:49-52 | the refresh keeps pair lookups and pair uniqueness |
| Messages.RoomForSendFresh | app/api/messages/route.ts:28-35 | a created room keeps room ids distinct |
| Messages.TouchKeepsIds | app/api/messages/route.ts:49-52 | the refresh keeps room ids distinct |
| Messages.OpenRoom | app/api/messages/route.ts:21-35 | the store's rooms and the returned id are those the pair lookup-or-create computes, with a fresh id for a created room |
| Messages.Deliver | app/api/messages/route.ts:39-52 | one unread message from the sender, under a fresh id, is appended, and only that room's last message and date change |
| Messages.PostMessage | app/api/messages/route.ts:6-54 | 401 without `token.userId`; 500 for a given room that does not exist; it succeeds exactly when neither applies, and then one unread message from the caller is appended and the room's last message becomes its content |
| Messages.RoomMessages | app/api/messages/route.ts:87-94 | the room's messages after `after`, ascending by creation, min(50, count) of them, and no message of the window left out is older than one returned |
| Messages.GetMessages | app/api/messages/route.ts:66-96 | 401, then 400 without `chatRoomId`, then 403 for a missing room or a non-member; otherwise the window |
| Messages.UnreadCount | app/api/chats/route.ts:38-44 | zero iff no message of the room to the caller is unread |
| Messages.MarkRead | app/api/messages/read/route.ts:17-26 | exactly the room's unread messages to the caller become read; every other message is unchanged |
| Messages.MarkReadProperties | app/api/messages/read/route.ts:17-26 | marking twice equals marking once; afterwards the caller's unread count is 0; other messages are unchanged |
| Messages.MarkReadOtherRoomsCount | app/api/messages/read/route.ts:17-26 | every other room's unread counts are unchanged |
| Messages.MarkReadRoute | app/api/messages/read/route.ts:6-28 | 401 without `token.id` with nothing changed; otherwise the flip |
| Chats.RoomsOf | app/api/chats/route.ts:16-21 | exactly the rooms where the caller is user1 or user2, ordered by last message date, newest first |
| Chats.RecentFirst | app/api/chats/route.ts:21 | rooms with a last message come first, and newer before older |
| Chats.OtherParticipant | app/api/chats/route.ts:24-28 | user2 when the caller is user1, else user1; together with the caller it is the room's pair |
| Chats.Entry | app/api/chats/route.ts:48-66 | room id, last message, unread count, other member; "Unknown User" and "CLIENT" for an unknown user; the relative time label |
| Chats.ListChats | app/api/chats/route.ts:8-68 | 401 iff no `token.id`; otherwise one entry per caller room, in listing order |
| Chats.EntriesNameCallerRooms | app/api/chats/route.ts:48-66 | every entry names a room of the caller and its other member |
| Chats.UnreadAfterMarkRead | app/api/messages/read/route.ts:17-26 | after the read POST on a listed room, its unread count is 0 |
| RelativeTime.Ago | app/api/chats/route.ts:86-89 | the "N unit(s) ago" text is at least as long as the unit plus " ago" and the count |
| RelativeTime.FormatMessageTime | app/api/chats/route.ts:79-95 | under 1 h: a count of whole minutes; under 24 h: a count of whole hours; the Yesterday label exactly in [24 h, 48 h); the locale date, of the message's day, exactly from 48 h on |
| RelativeTime.Render | app/api/chats/route.ts:84-91 | a label has text unless it is a locale date; the text is "Yesterday" only for the Yesterday label |
| RelativeTime.YesterdayTextIffSecondDay | app/api/chats/route.ts:90-91 | the text is "Yesterday" exactly when the message is between one and two days old |
| RelativeTime.AgoIsNotYesterday | app/api/chats/route.ts:84-91 | an "ago" label is never "Yesterday" |
| RelativeTime.SingularOnlyAtOne | app/api/chats/route.ts:86-89 | the plural "s" appears iff the count is not 1 |
| RelativeTime.CountRanges | app/api/chats/route.ts:84-89 | minutes are 0..59 and hours 1..23 in their bands |
| RelativeTime.OneMinuteAgo | app/api/chats/route.ts:84-86 | the text is "1 min ago" exactly when the gap is one to two minutes |
| RelativeTime.YesterdayIsElapsedTime | app/api/chats/route.ts:90-91 | a message from 23:00 the previous day reads "2 hours ago" at 01:00, not "Yesterday" |
| SessionTime.SessionStart | app/appointments/page.tsx:59-67 | the start instant is at or after the booking day's midnight, or Invalid Date |
| SessionTime.TwoDigits | app/appointments/page.tsx:65-66 | `parseInt` of two digits is their value |
| SessionTime.WellFormedSessionStart | app/appointments/page.tsx:59-67 | for "HH:MM" the start is midnight plus the hours and minutes |
| SessionTime.ClockTimeSameDay | app/appointments/page.tsx:59-67 | a real clock time starts on the booking's own day |
| SessionTime.NoColonInvalid | app/appointments/page.tsx:60-66 | a start without a colon is Invalid Date |
| Dashboard.TotalEarnings | app/api/dashboard/route.ts:26 | non-negative when every amount is |
| Dashboard.EarningsAppend | app/api/dashboard/route.ts:26 | the earnings of two lists add up |
| Dashboard.MissingAmountCountsZero | app/api/dashboard/route.ts:26 | a booking without an amount adds nothing |
| Dashboard.ActiveClients | app/api/dashboard/route.ts:29-33 | no id twice, and no more ids than recent bookings whose status is not "CANCELLED" |
| Dashboard.ActiveClientsExact | app/api/dashboard/route.ts:29-33 | a client is active iff one of their recent bookings is not upper-case "CANCELLED" |
| Dashboard.LowerCaseCancelledStillActive | app/api/dashboard/route.ts:32 | a lower-case "cancelled" booking still makes its client active |
| Dashboard.AverageRating | app/api/dashboard/route.ts:36-44 | 0 when no completed booking of the counselor is rated |
| Dashboard.AverageRatingBounds | app/api/dashboard/route.ts:42-44 | when some booking is rated and every rating is in [1, 5], the average is in [1, 5] |
| Dashboard.MeanBounds | app/api/dashboard/route.ts:42-44 | the mean of ratings in [lo, hi] is in [lo, hi] |
| Dashboard.DivisionBounds | app/api/dashboard/route.ts:43 | a sum between n·lo and n·hi divided by n is between lo and hi |
| Dashboard.RatingSumBounds | app/api/dashboard/route.ts:43 | the sum of n ratings in [lo, hi] lies between n·lo and n·hi |
| Dashboard.AverageOfEqualRatings | app/api/dashboard/route.ts:42-44 | when every rated booking has rating x, the average is x |
| Dashboard.FirstFiveScheduled | app/api/dashboard/route.ts:47-53 | the first min(5, count) of the counselor's scheduled bookings in (date, startTime) order: no scheduled booking left out orders before one kept |
| Dashboard.UpcomingSessions | app/api/dashboard/route.ts:55-87 | exactly those of the five that start at or after now, sorted by start |
| Dashboard.LimitBeforeFilter | app/api/dashboard/route.ts:52-66 | when the first five all started already, nothing is upcoming, whatever follows them |
| Dashboard.GetDashboard | app/api/dashboard/route.ts:8-87 | 401 iff no `token.id`; otherwise totals over the last 30 days, active clients at most sessions, the average and the upcoming list |
| Dashboard.ActiveBound | app/api/dashboard/route.ts:25-33 | there are no more active clients than recent bookings |
| Dashboard.FutureBookingCounted | app/api/dashboard/route.ts:20-23 | a future booking counts toward the 30-day totals |
| Clients.RoomDates | app/api/clients/route.ts:33-38 | the last-message dates of rooms joining the pair |
| Clients.LastRoomDate | app/api/clients/route.ts:33-38 | none iff no joined room has a date; otherwise the latest |
| Clients.BookingDates | app/api/clients/route.ts:40-44 | the dates of the pair's scheduled or completed bookings |
| Clients.LastBookingDate | app/api/clients/route.ts:40-44 | none iff there is no such booking; otherwise the latest date |
| Clients.LatestOfFiltered | app/api/clients/route.ts:40-44 | the maximum of the filtered dates belongs to one of the bookings and bounds all of them |
| Clients.LastInteraction | app/api/clients/route.ts:46-51 | the room date when one exists, else the booking date, else none |
| Clients.ClientList | app/api/clients/route.ts:16-22 | distinct ids; an id is listed iff the client has a scheduled or completed booking with the counselor |
| Clients.Entry | app/api/clients/route.ts:27-64 | the client's id, name and email, the count of all bookings of the pair whatever their status, and the formatted last interaction |
| Clients.Entries | app/api/clients/route.ts:25-66 | one entry per listed client, in order |
| Clients.GetClients | app/api/clients/route.ts:6-68 | 401 without `token.userId`; 500 when a booking's user is missing; otherwise the entries |
| Clients.EntryIds | app/api/clients/route.ts:57-58 | each entry's id is its listed client's |
| Clients.ListedOnce | app/api/clients/route.ts:22 | no client is listed twice |
| Clients.ListedExactly | app/api/clients/route.ts:16-22 | a client is listed iff they have a scheduled or completed booking with the caller |
| Clients.EveryEntryHasInteraction | app/api/clients/route.ts:27-51 | every listed client has a last interaction and at least one session |
| Clients.CancelledSessionsCount | app/api/clients/route.ts:27-30 | cancelled bookings count toward `totalSessions` |
| Clients.CancelledNotListed | app/api/clients/route.ts:16-22 | a counselor with only cancelled bookings lists no clients |
| ClientAppointments.StartOrZero | app/appointments/page.tsx:69-89 | the start instant when it parses |
| ClientAppointments.Upcoming | app/appointments/page.tsx:58-89 | exactly the bookings starting at or after now, every one kept, earliest first |
| ClientAppointments.Past | app/appointments/page.tsx:91-122 | exactly the bookings that started before now, every one kept, latest first |
| ClientAppointments.ExactlyOneList | app/appointments/page.tsx:58-101 | a booking whose start parses is in exactly one list, whatever its status; an unparsable one is in neither |
| ClientAppointments.TabCounts | app/appointments/page.tsx:220-221 | the two tab counts plus the unparsable bookings add up to the whole list |
| ClientAppointments.ThreeWay | app/appointments/page.tsx:58-101 | upcoming, past and unparsable counts sum to the list length |
| ClientAppointments.StatusColor | app/appointments/page.tsx:124-135 | blue, green, red for scheduled, completed, cancelled; gray iff the status is another |
| ClientAppointments.ColorsDistinct | app/appointments/page.tsx:124-135 | the three known statuses get three different colours |
| ClientAppointments.PastSessionShowsActions | app/appointments/page.tsx:195 | a session stored at the day's end that started two hours ago is past yet shows the actions |
| ClientAppointments.UpcomingSessionHidesActions | app/appointments/page.tsx:195 | a session stored at midnight that starts later today is upcoming yet hides the actions |
| CounselorAppointments.Upcoming | app/dashboard/appointments/page.tsx:122-126 | the scheduled bookings dated after now, in order; every such booking is kept |
| CounselorAppointments.Past | app/dashboard/appointments/page.tsx:128-132 | the others, in order; every such booking is kept |
| CounselorAppointments.Partition | app/dashboard/appointments/page.tsx:122-132 | the two lengths add up to the list, and every booking is in exactly one list |
| CounselorAppointments.StatusConfigColor | app/dashboard/appointments/page.tsx:34-47 | green, blue, red for scheduled, completed, cancelled; any other status has no entry (the card throws) |
| CounselorAppointments.ButtonsOnlyOnUpcoming | app/dashboard/appointments/page.tsx:148-249 | a listed booking offers complete and cancel iff it is in the upcoming list; a booking in the past list, scheduled or not, offers neither |
| CounselorAppointments.StatusText | app/dashboard/appointments/page.tsx:75-78 | the two new statuses are never "scheduled" |
| CounselorAppointments.WithStatus | app/dashboard/appointments/page.tsx:95-99 | same length and the same ids in order |
| CounselorAppointments.WithStatusChangesOnlyTarget | app/dashboard/appointments/page.tsx:95-99 | only the target's status changes |
| CounselorAppointments.MarkedLeavesUpcoming | app/dashboard/appointments/page.tsx:95-126 | after completing or cancelling a booking, upcoming is the old upcoming without it |
| CounselorAppointments.WithStatusIdempotent | app/dashboard/appointments/page.tsx:95-99 | applying the same update twice is applying it once |
| CounselorAppointments.BookingList.constructor | app/dashboard/appointments/page.tsx:52-60 | the list holds the fetched bookings |
| CounselorAppointments.BookingList.UpdateBookingStatus | app/dashboard/appointments/page.tsx:75-112 | the list is updated after a successful response and unchanged after a failure |
| CounselorFilter.FilteredCounselors | app/counselors/components/counselor-list.tsx:125-172 | an order-preserving subsequence; the input when there are no filters; otherwise exactly the counselors every active test keeps |
| CounselorFilter.SubsequenceRefl | app/counselors/components/counselor-list.tsx:171 | a list is a subsequence of itself |
| CounselorFilter.FilterTwice | app/counselors/components/counselor-list.tsx:125-172 | filtering the output again returns it unchanged |
| CounselorFilter.SearchOnly | app/counselors/components/counselor-list.tsx:127-140 | with only a search term, a counselor is kept iff the lower-cased term occurs in the name, a specialization or a language |
| CounselorFilter.SearchIgnoresCase | app/counselors/components/counselor-list.tsx:128-129 | a term and its lower-cased form keep the same counselors |
| CounselorFilter.KeptWithinBounds | app/counselors/components/counselor-list.tsx:160-168 | every kept counselor's rate is at most the maximum and experience at least the minimum |
| CounselorFilter.MissingRateAlwaysKept | app/counselors/components/counselor-list.tsx:160-163 | a counselor without a rate passes every price limit |
| CounselorFilter.LooserLimitsKeepMore | app/counselors/components/counselor-list.tsx:160-168 | a higher price limit or lower experience minimum keeps a superset, in order |
| Recommend.Share | app/api/counselors/recommended/route.ts:40-46 | a 30-point share in [0, 30]; 0 iff nothing matches; 30 iff everything matches |
| Recommend.LanguageMatches | app/api/counselors/recommended/route.ts:40-42 | at most the number of languages |
| Recommend.SpecialtyMatches | app/api/counselors/recommended/route.ts:59-61 | at most the number of specializations |
| Recommend.ExperiencePoints | app/api/counselors/recommended/route.ts:68-72 | 20 at five years or more, else 4 per year; in [0, 20] for non-negative years |
| Recommend.ExperienceMonotone | app/api/counselors/recommended/route.ts:68-72 | more experience never scores less |
| Recommend.TotalScore | app/api/counselors/recommended/route.ts:35-73 | in [0, 100] for non-negative years |
| Recommend.ScoreCounselor | app/api/counselors/recommended/route.ts:35-73 | the step-by-step score equals the sum of the four components; matchPoints counts the matched criteria, at most 3 |
| Recommend.Round | app/api/counselors/recommended/route.ts:76 | the nearest integer, halves up |
| Recommend.RoundBounds | app/api/counselors/recommended/route.ts:76 | rounding keeps [0, 100] and leaves whole numbers alone |
| Recommend.MatchScore | app/api/counselors/recommended/route.ts:74-77 | in [0, 100] for non-negative years |
| Recommend.PerfectMatch | app/api/counselors/recommended/route.ts:35-77 | a counselor matching on every criterion with five or more years scores 100 |
| Recommend.ScoreAll | app/api/counselors/recommended/route.ts:35-78 | each counselor with its own match score, in order |
| Recommend.TopThree | app/api/counselors/recommended/route.ts:80-83 | min(3, n) entries, non-increasing by score, drawn from the input; none left out scores higher than one kept |
| Recommend.ThreeMostExperienced | app/api/counselors/recommended/route.ts:19-21 | min(3, n) counselors in non-increasing experience; none left out has more |
| Recommend.MostExperienced | app/api/counselors/recommended/route.ts:19-28 | those three, each scored 100 |
| Recommend.FullMarks | app/api/counselors/recommended/route.ts:24-27 | every counselor with score 100 |
| Recommend.Recommended | app/api/counselors/recommended/route.ts:9-85 | 401 iff no `token.userId`; the fallback without a profile; the top three of all scored counselors with one |
| Recommend.RecommendedAreBest | app/api/counselors/recommended/route.ts:74-83 | each returned score is the counselor's own; a counselor left out scores no higher than any returned |
| ApplicationForm.Advance | components/counselor-application/counselor-application-form.tsx:207-225 | Next moves up exactly when valid and below step 4; Back moves down above step 1; the range [1, 4] is kept |
| ApplicationForm.RunInRange | components/counselor-application/counselor-application-form.tsx:96 | from step 1 (or any step in range) every sequence of events stays in [1, 4] |
| ApplicationForm.ClimbNeedsValidNext | components/counselor-application/counselor-application-form.tsx:207-219 | the step rises by no more than the number of validated Next events |
| ApplicationForm.ReviewAndRateAlwaysValid | components/counselor-application/counselor-application-form.tsx:40 | the review step always validates, and every hourly rate string passes `min(0)` |
| ApplicationForm.BioBoundary | components/counselor-application/counselor-application-form.tsx:41 | with the rest of step 2 filled, it passes iff the bio has 50 to 500 characters |
| ApplicationForm.Wizard.constructor | components/counselor-application/counselor-application-form.tsx:96 | the wizard starts at step 1 |
| ApplicationForm.Wizard.NextStep | components/counselor-application/counselor-application-form.tsx:207-219 | the step follows Advance with the current group's validity |
| ApplicationForm.Wizard.PrevStep | components/counselor-application/counselor-application-form.tsx:221-225 | the step follows Advance with Back |
| ApplicationForm.Wizard.ShowsSubmit | components/counselor-application/counselor-application-form.tsx:348-373 | Submit is shown iff the step is the last |
| ApplicationForm.Wizard.BackEnabled | components/counselor-application/counselor-application-form.tsx:343 | Back is enabled iff the step is above 1 and nothing is submitting |
| Middleware.Gate | middleware.ts:6-46 | redirect to "/" iff the matcher covers the path, it is not public and there is no session |
| Middleware.RedirectTargetPasses | middleware.ts:6 | the redirect target is public, so it passes |
| Middleware.SubPathNotPublic | middleware.ts:13 | "/counselors/x" is not public and is redirected without a session |
| Middleware.ApiNeverRedirected | middleware.ts:46 | paths under /api are never gated |
| Middleware.SessionAlwaysPasses | middleware.ts:27-32 | with a session every path passes |

## Left out

- **Authentication.** `getToken`, `getServerSession` and the session provider are not modelled. The caller is an input, one per token field the handler reads.
- **The store's query semantics**, including atomicity:
  - handlers run one at a time, so the check-then-insert race between two POSTs is not modelled;
  - `populate` is not modelled as a lookup, except where a missing user makes the clients route fail;
  - the order of sort ties is the one the insertion sort leaves, where the store leaves it unspecified; no contract depends on it.
- **The dashboard's recent-messages aggregation.** Its `$group`/`$first` pipeline and output order are not modelled.
- **Stripe signature verification.** It is an oracle: the verified event, or none, is an input.
- **The checkout session route.** It is a wrapper over the Stripe API. Only the metadata it attaches is modelled, in `Webhook.BuildMetadata`.
- **Locale and timezone rendering.**
  - `toLocaleDateString` and the date-fns format strings are abstracted to an injective label on calendar days.
  - Instants are local milliseconds: time zones and daylight-saving shifts are not modelled.
  - `setDate(getDate() - 30)` is modelled as exactly 30 days.
- **Floating point.** Amounts, ratings and scores are exact reals, with no IEEE rounding. `parseFloat` of the schedule rate is not modelled: the rate arrives as a number.
- Text.LowerStr: lower-cases ASCII 'A'..'Z' only. JavaScript's `toLowerCase` applies full Unicode case mapping, which can change other letters and the string's length. CounselorFilter.SearchOnly and CounselorFilter.SearchIgnoresCase state their facts over this ASCII mapping.
- **Text.ParseInt** reads leading decimal digits only. It does not model JavaScript's skipping of leading whitespace or a sign.
- **Email validation.** zod's email pattern is an `isEmail` predicate parameter of the application form.
- **The application form's effects.** File uploads, the submit handler and the toast messages are left out. A document field is a flag for "holds a file".
- **Realtime and presentation.** The socket layer, AI matching, Google calendar and meetings, and every presentational component are left out.
- **Client-side fetches.** `updateBookingStatus` does not issue its request in the model: the outcome of the request is the `responseOk` parameter.
- **The schedule page's slot ids** (`Math.random`) are parameters. The caller supplies a fresh one.
- **Middleware.Gate** treats the matcher's pattern as "the first path segment does not start with an excluded prefix". The rest of the regular-expression semantics are not modelled.
- **Recommend.ScoreCounselor** compares the step-by-step sum with `TotalScore` in exact arithmetic. The order of floating-point additions is not modelled.
- **A comment in the source** says the recommendation route takes the top 6 (app/api/counselors/recommended/route.ts:80). The code takes 3, and the model follows the code.

## Findings

| source | as written | input that shows it | evidently intended | confidence | as-written member | corrected member |
|---|---|---|---|---|---|---|
| app/api/bookings/route.ts:63-90 | The collision range is `$gte` midnight and `$lt` the value that `setHours(23,59,59,999)` leaves in `bookingDate`. That same mutated date (the day's last millisecond) is what `Booking.create` stores. The same range appears in app/api/bookings/validate/route.ts:54-57. | A successful POST for counselor C, day D, "09:00-10:00", then the identical POST again: the stored booking's date is EndOfDay(D), which is outside [StartOfDay(D), EndOfDay(D)), so the second POST and validate both accept the slot. | The range is the whole requested calendar day, so a stored booking blocks the same slot. | not executed | Bookings.RepeatPostAcceptedAsWritten | Bookings.RepeatPostRejected |
