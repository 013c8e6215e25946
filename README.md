# Counseling marketplace API: booking, payment and note core in Dafny

This project models the core of a small Express/Mongoose backend in which clients
book appointments with counselors, pay for them, and counselors keep session
notes. The model keeps the four MongoDB collections (users, appointments,
payments, session notes) as tables in one object, `Store.Db`, and gives every
route handler of the core as a Dafny member over that object:

- handlers that write (`POST /appointments`, `PUT /appointments/:id/status`,
  `POST /payments/confirm`, `POST /session-notes`, `PUT /users/:id`,
  `POST /users/counselors/generate-slots`) are methods with `modifies db` whose
  contracts give the outcome for every input (each error and the successful
  write) and say which tables stay as they were;
- handlers that only read (the role-scoped lists, the counselor lookups,
  `create-payment-intent`) are functions of the tables;
- the schemas (`models/*.js`) are datatypes plus the enum casts and defaults
  that Mongoose applies when a document is built and saved.

The requester's id and role, which the auth middleware places on `req.user`,
are explicit parameters. Things the handlers obtain from outside are parameters
as well: the meeting-link token, the clock reading that becomes a note's
`createdAt`, the current day number for the slot generator together with the
ISO rendering of a day (`iso`), and the payment gateway (a function from the
charge request to the client secret).

A record's id is its position in its collection. In the core nothing is ever
deleted, so positions are stable, and a `find` with a filter returns the
matching ids (`Tables.Select`). The model returns matches in id order; the
source's unsorted `find` promises no order. Lists are
returned as those ids; looking each id up gives the documents the route sends.

Error responses are `Wrappers.Error`: `Invalid` (400 from the request
validator: an empty required string), `NotFound` (404), `NotAuthorized` (401),
`Forbidden` (403, admin only), `Conflict` (400, slot already booked) and
`ServerError` (500 when the schema rejects a document on save, for example a
`type` or `status` outside its enum; the 500 a date Mongoose cannot cast would
cause is not modelled, see "Date casting" under "## Left out").

A day is an integer counted from 1970-01-01. That day was a Thursday, so
the weekday of day `d` is `(d + 4) % 7`, with 0 meaning Sunday and 6 Saturday,
as `getDay()` counts.

The invariant "at most one scheduled appointment per (counselor, date, time)"
(`AppointmentRoutes.NoDoubleBooking`) is proved to be kept by `Book`. It is not
an invariant of the whole system. `SetStatus` and `ConfirmPayment` can both set
an appointment back to `scheduled`. `RescheduleCanDoubleBook` shows a table
where doing so double-books a slot, and `RestatusKeepsNoDoubleBooking` gives
the status changes that are safe.

Four behaviours of the code worth noting:
- a caller who is neither client nor counselor of an appointment gets 401 `NotAuthorized`; the code never answers 403 there;
- appending a note checks only that the requester is the appointment's counselor, whatever the appointment's status;
- specialization is required for counselors and optional, not forbidden, for every other role;
- listing appointments or payments as any role other than client or counselor is 401.

## Model

| member | source | states |
|---|---|---|
| `Tables.Select` | routes/appointments.js:71-78 | a `find(filter)` over a collection (also routes/payments.js:112-116, routes/sessionNotes.js:70 and routes/users.js:20): an id is returned exactly when it is in the collection and its document matches; ids come in increasing order, so each matching document appears once |
| `UserModel.WellFormed` | models/User.js:5-19 | first name, last name, email and password are non-empty, and a counselor has a truthy specialization: the validators a user document passes before it is stored |
| `UserModel.UniqueEmails` | models/User.js:7 | the unique index on email: no two users share an email |
| `UserModel.CastRole` | models/User.js:9-13 | an absent role becomes `client`; a present one is accepted exactly when it is one of the three enum names, and then it is that name |
| `UserModel.CastRoleName` | models/User.js:9-13 | every role's name is accepted and reads back as that role |
| `AppointmentModel.CastKind` | models/Appointment.js:13-17 | `type` has no default; a value is accepted exactly when it is one of the three enum names, and accepted values read back to their name |
| `AppointmentModel.CastStatus` | models/Appointment.js:18-22 | an absent status becomes `scheduled`; a present one is accepted exactly when it is one of the three enum names |
| `AppointmentModel.CastNames` | models/Appointment.js:13-22 | every type and status name is accepted and reads back as itself |
| `AppointmentModel.DurationOrDefault` | routes/appointments.js:52 | the `or 60` fallback Book applies to the given duration: a non-zero given duration is kept; an absent or zero one becomes 60 (the schema default at models/Appointment.js:12 covers only the absent case); the stored duration is never 0 |
| `AppointmentModel.WellFormed` | models/Appointment.js:10-11 | the required `date` and `time` strings are non-empty |
| `PaymentModel.CastPaymentStatus` | models/Payment.js:17-21 | an absent status becomes `pending`; a present one is accepted exactly when it is one of the three enum names |
| `PaymentModel.WellFormed` | models/Payment.js:16 | the required `paymentMethod` string is non-empty |
| `SessionNoteModel.WellFormed` | models/SessionNote.js:15 | the required `notes` string is non-empty |
| `Slots.Weekday` | routes/users.js:106 | `getDay()` of a day number: always in 0 … 6, 0 Sunday and 6 Saturday, with day 0 (1970-01-01) a Thursday |
| `Slots.GenerateDemoSlots` | routes/users.js:100-115 | the loop returns exactly the demo slot list for the given day |
| `Slots.SlotDaysExact` | routes/users.js:103-106 | the included days are exactly the non-weekend days among today+1 … today+n, strictly increasing |
| `Slots.SlotsOfLayout` | routes/users.js:107-112 | each included day contributes three slots in a row, its ISO date followed by T10:00:00, T14:00:00, T16:00:00, in day order |
| `Slots.FiveWeekdays` | routes/users.js:103-106 | any seven consecutive days hold exactly five weekdays |
| `Slots.DemoSlotsShape` | routes/users.js:100-115 | for every start day the list has 15 slots; slot 3k+j is the k-th weekday of the window at the j-th time; no slot falls on a Saturday or a Sunday |
| `AppointmentRoutes.FindScheduled` | routes/appointments.js:36-41 | the availability query finds a scheduled appointment of that counselor, date and time exactly when the slot is taken |
| `AppointmentRoutes.Book` | routes/appointments.js:20-58 | empty date/time/type is Invalid; a missing user or a non-counselor is NotFound; a taken slot is Conflict; an unknown type is ServerError; all of these leave every table unchanged; otherwise exactly one well-formed record is appended: client = requester, the given counselor/date/time/type, duration the given one when non-zero, else 60, status scheduled, the meeting link; a table without double bookings keeps none |
| `AppointmentRoutes.BookAsWritten` | routes/appointments.js:47-61 | as the handler is written, with `generateMeetingLink` undefined: the guards answer as in Book and every request that passes them ends in ServerError, so no booking succeeds |
| `AppointmentRoutes.BookKeepsNoDoubleBooking` | routes/appointments.js:36-57 | appending a scheduled appointment to a free slot keeps at most one scheduled appointment per (counselor, date, time) |
| `AppointmentRoutes.BookedSlotIsTaken` | routes/appointments.js:36-44 | after a booking its slot is taken (a second booking is a Conflict), and every other slot is taken exactly when it was before |
| `AppointmentRoutes.FinishedDoNotBlock` | routes/appointments.js:36-41 | completed or cancelled appointments at a slot do not make it taken |
| `AppointmentRoutes.ListForUser` | routes/appointments.js:67-87 | a client gets exactly the ids of the appointments whose client they are, a counselor exactly those whose counselor they are, in increasing order; any other role gets NotAuthorized |
| `AppointmentRoutes.ListedOnlyToParticipants` | routes/appointments.js:70-81 | every listed appointment has the requester as its client or its counselor |
| `AppointmentRoutes.SetStatus` | routes/appointments.js:90-114 | an absent id is NotFound; a requester who is neither client nor counselor is NotAuthorized; a value outside the enum is ServerError; all leave the tables unchanged; otherwise only that appointment's status changes, to exactly the requested value |
| `AppointmentRoutes.RestatusKeepsNoDoubleBooking` | routes/appointments.js:107-108 | completing or cancelling an appointment, or re-affirming one that is scheduled, keeps slots single-booked |
| `AppointmentRoutes.RescheduleCanDoubleBook` | routes/appointments.js:107 | there is a table without double bookings in which setting a cancelled appointment back to scheduled creates one |
| `PaymentRoutes.ToCents` | routes/payments.js:39 | `amount * 100`: the charge is a whole number of cents that divides back to exactly the amount |
| `PaymentRoutes.CreatePaymentIntent` | routes/payments.js:25-44 | an absent appointment is NotFound, a requester who is not its client NotAuthorized; otherwise the result is the gateway's answer to a charge of amount × 100 cents in usd with the appointment id as metadata; nothing is stored |
| `PaymentRoutes.ConfirmPayment` | routes/payments.js:64-99 | empty method or transaction id is Invalid; an absent appointment NotFound; a requester who is not its client NotAuthorized; all leave both tables unchanged; otherwise exactly one completed payment is appended with client = requester, the appointment's counselor, the given amount, method and transaction id, and that appointment's status, and nothing else, becomes scheduled |
| `PaymentRoutes.ListForUser` | routes/payments.js:108-127 | a client gets exactly the payments they made, a counselor exactly those paid to them; any other role gets NotAuthorized |
| `PaymentRoutes.ConfirmedPaymentIsListed` | routes/payments.js:83-118 | a payment recorded by confirmation appears in the payer's list and in the counselor's list |
| `SessionNoteRoutes.Append` | routes/sessionNotes.js:18-51 | empty notes is Invalid; an absent appointment NotFound; anyone but its counselor, the client included, NotAuthorized; all leave the notes unchanged; otherwise one well-formed note is appended with counselor = requester, the appointment's client, the text, the attachments or an empty list, and the clock reading |
| `SessionNoteRoutes.InsertNewestFirst` | routes/sessionNotes.js:70-72 | inserting a note into a newest-first list keeps it newest-first and adds exactly that note |
| `SessionNoteRoutes.SortNewestFirst` | routes/sessionNotes.js:70-72 | the sorted list holds exactly the given notes, each once, newest first |
| `SessionNoteRoutes.NewestFirstPairs` | routes/sessionNotes.js:72 | in a newest-first list every note is at least as new as every note after it |
| `SessionNoteRoutes.ListForAppointment` | routes/sessionNotes.js:55-78 | an absent appointment is NotFound, a requester who is neither its client nor its counselor NotAuthorized; otherwise exactly the notes of that appointment, each once, newest first |
| `UserRoutes.Counselors` | routes/users.js:18-28 | exactly the users whose role is counselor |
| `UserRoutes.CounselorById` | routes/users.js:31-42 | the user when it exists and is a counselor, otherwise NotFound |
| `UserRoutes.CounselorLookupAgrees` | routes/users.js:20-36 | the detail route finds a user exactly when the list route lists it |
| `UserRoutes.Merge` | routes/users.js:61-69 | each text field takes the new value exactly when it is truthy and keeps the old one otherwise; slots take any given list, and only when the user is a counselor; email, password, role and picture never change |
| `UserRoutes.MergeKeepsWellFormed` | routes/users.js:61-71 | a merged user still passes the schema's validators, so the save succeeds |
| `UserRoutes.MergeIdempotent` | routes/users.js:61-69 | sending the same update twice has the effect of sending it once |
| `UserRoutes.UpdateProfile` | routes/users.js:45-77 | an absent user is NotFound; a requester who is neither that user nor an admin NotAuthorized; both change nothing; otherwise only that user changes, to the merge of the old document and the request |
| `UserRoutes.GenerateSlots` | routes/users.js:80-97 | a non-admin gets Forbidden and nothing changes; for an admin every counselor's slots become the demo list, no other user changes, and the result is the number of counselors |

## Left out

- Authentication and `req.user`: the requester's id and role are trusted parameters.
- Request validation beyond empty strings: ids are always present and `amount` is always a number, because ids are naturals and amounts integers.
- Request bodies whose values have other JavaScript types (a number as `type`, a missing `status` in a status update): every text field is a string.
- Mongoose persistence, `populate` and `.select("-password")`: the tables are sequences, and lists return ids without the counterpart names attached.
- Store failures and the 500 responses they cause: every save either passes the schema's validators and enums or is rejected by them (the date cast is the exception, see "Date casting").
- `ConfirmPayment`: the two writes are modelled as both succeeding. The source has no rollback if the second save fails.
- `CreatePaymentIntent`: the Stripe call is the parameter `gateway`; the currency and metadata are modelled, the HTTP call is not.
- `ToCents`: amounts are whole numbers. The source multiplies a JavaScript float by 100, which for an amount such as 19.99 gives a non-integer.
- Date casting: `date` is an opaque string. Mongoose casts it to a Date, so two spellings of one instant match in the source but not in the model.
- `AppointmentRoutes.Book`: does not model the 500 for a non-empty date Mongoose cannot cast (such as `"next tuesday"`). That date makes the availability query at routes/appointments.js:36-41 throw, and the source answers 500 where `Book` books it, because dates are opaque strings here.
- `generateMeetingLink`: the token is the parameter `meetingLink`.
- `new Date()`, `getDay()` (local time) and `toISOString()` (UTC): a day is an integer, and rendering it is the parameter `iso`. The time-zone mismatch is not modelled.
- `GenerateSlots` reads the clock once per request. The source calls the generator once per counselor, so a request running past midnight could give counselors different windows.
- The check-then-act race between two concurrent bookings of one slot: concurrency is not modelled.
- `createdAt` of appointments and payments: no route of the core reads it. A note's `createdAt` is the parameter `now`, and no clock ordering is assumed.
- `GET /users/me`: a plain lookup of the requester's own document, not modelled.
- Registration, login, the bcrypt pre-save hook and slot generation for a newly registered counselor: routes/auth.js and the middleware are not part of this model.
- The schema's unique index on email and its validators are `Store.Db.Valid`, which the user-writing methods require and keep.

## Findings

| source | as written | input that shows it | evidently intended | confidence | as-written member | corrected member |
|---|---|---|---|---|---|---|
| routes/appointments.js:54 | `generateMeetingLink()` is called, but no file of the repository in this model defines it, and the comment beside it asks for it to be implemented. Building the record therefore throws a ReferenceError, and the handler answers 500 | any booking that passes the guards, such as an existing counselor, a free slot and type "career" | the appointment is saved and returned with a generated meeting-link token | not executed; medium (a definition in a file outside this model would remove it) | `AppointmentRoutes.BookAsWritten` | `AppointmentRoutes.Book` |
