# Smart Booking: the booking wizard, the admin post list and the backend decisions, in Dafny

This project models the three pieces of logic in the Smart Booking site (a React front end with
a small Express back end) and proves properties of them:

- **The booking wizard** (`src/components/AppointmentBooking.tsx`, module `BookingWizard`).
  The page moves through five steps: service, date, time, details, confirmation. The class
  `Wizard` holds the component's six pieces of state. Each of its methods is one handler.
  Each handler is specified by a function on `WizardState`, a value holding the same six
  fields. The submit handler sends three requests. Their outcomes are inputs, each ok, not ok
  or thrown, and the handler returns the requests it sent. The page's controls are modelled as
  events, with the steps on which each control is shown. A submit is one atomic event. From
  them the model proves what holds for every sequence of user actions in which no control is
  used while a submit is in flight: a confirmed booking then names an offered service, an
  available slot, a Monday-to-Friday date, a name and an email.
- **The admin post list** (`src/components/AdminPanel.tsx`, module `AdminPosts`). The class
  `AdminPanel` holds the post list, the post being edited, the add form and the
  `localStorage` slot. Adding, replacing and deleting posts are functions on sequences, and
  the methods write every change through to the slot. Post ids and dates come from the clock
  in the source; here they are parameters.
- **The backend** (`smart-booking-backend/server.js` and `smart-booking-backend/routes/bookingStats.js`,
  modules `BookingsDb`, `BookingStats` and `Server`). The `bookings` table is a sequence of
  rows. Each awaited query, insert or mail send takes an `Effect` input that says whether it
  resolves or throws. The stats handler reads its counts back from the decimal text
  node-postgres returns, using a model of `parseInt` (module `JsText`). It rounds the success
  rate with integers: on exact rationals, `Math.round((s / t) * 100)` is `(200*s + t) / (2*t)`. The intake handler
  checks the message, sends the mail, then inserts the row.

The two stats handlers are the same code: one is in server.js and one is in the router file.
server.js never mounts the router. The logic is modelled once, in `BookingStats`, and
`Server.GetBookingStats` runs it.

Three facts about the code shape the model:

- A `sendMail` that throws (server.js:122) ends the intake handler with status 500, and no row
  is inserted.
- The intake handler ignores any `userEmail` in the request and inserts `user@example.com`
  into every row (server.js:127).
- The confirmation page is rendered by an early return (AppointmentBooking.tsx:183). So the
  calendar is shown only on the date, time and details steps.

Three consequences of the code, stated as proofs:

- The "successful" query is the same `COUNT(*)` as the total. So when no booking is inserted
  between the handler's three queries, a successful stats reply has a success rate of 100
  (`BookingStats.StatsResponse`). The queries are separate calls with no transaction. A
  booking inserted between the first and the third makes the rate
  `Math.round(((t + 1) / t) * 100)` for a table of t rows. That is above 100 for fewer than
  200 rows (`BookingStats.InsertBetweenQueries`). At exactly 200 rows the exact rate is 100.5,
  but the double computation gives 100.49999999999999, which rounds to 100; the model's exact
  rounding gives 101 there.
- The calendar disables a day whose midnight is before `new Date()`. So today can be chosen
  only at the exact instant of midnight (`BookingWizard.DateDisabled`).
- The name and email inputs are `required`, so the browser submits the form only when both are
  filled in. When no control is used while the submit's requests are in flight, a confirmed
  booking therefore carries a name and an email (`BookingWizard.ConfirmedBookingIsComplete`).

## Model

| member | source | states |
|---|---|---|
| `BookingWizard.Wizard.constructor` | src/components/AppointmentBooking.tsx:18-27 | the first render: step 'service', today's date selected, empty time, service and form, not sending |
| `BookingWizard.Wizard.SelectService` | src/components/AppointmentBooking.tsx:80-83 | records the chosen service id and always sets the step to 'date'; nothing else changes |
| `BookingWizard.Wizard.SelectDate` | src/components/AppointmentBooking.tsx:85-90 | stores the selection, defined or not; the step becomes 'time' only for a defined date and is otherwise unchanged |
| `BookingWizard.Wizard.SelectTime` | src/components/AppointmentBooking.tsx:92-95 | stores the time and sets the step to 'details' |
| `BookingWizard.Wizard.ClickSlot` | src/components/AppointmentBooking.tsx:341-346 | only an available slot reaches the time handler; an unavailable one changes nothing |
| `BookingWizard.Wizard.SetName` | src/components/AppointmentBooking.tsx:376 | changes only the form's name |
| `BookingWizard.Wizard.SetEmail` | src/components/AppointmentBooking.tsx:387 | changes only the form's email |
| `BookingWizard.Wizard.SetMessage` | src/components/AppointmentBooking.tsx:397 | changes only the form's message |
| `BookingWizard.Wizard.Submit` | src/components/AppointmentBooking.tsx:99-173 | the new state and the requests sent are exactly those of `Submitted`: the guard, the flag set and cleared, the requests in order, the step change |
| `BookingWizard.Submitted` | src/components/AppointmentBooking.tsx:99-173 | no date, time or service: no request and no state change; otherwise the analysis request goes first, with an empty message replaced by 'General consultation appointment'; a thrown analysis request stops after it; otherwise the email request follows with the name, date, time, the message as typed and the analysis body (null unless ok); all three requests go out exactly when neither earlier request threw; the booking request carries the email content or 'Appointment confirmed!'; the step becomes 'confirmation' exactly when the booking reply is ok and is otherwise unchanged; only the step and the sending flag can change, and the flag ends false |
| `BookingWizard.Wizard.BackToStart` | src/components/AppointmentBooking.tsx:175-181 | step 'service', empty service and time, empty name, email and message, the date reset to the given today; the sending flag untouched |
| `BookingWizard.Wizard.Back` | src/components/AppointmentBooking.tsx:404-412 | the step becomes 'time' and every selection and the form are kept |
| `BookingWizard.DateDisabled` | src/components/AppointmentBooking.tsx:313 | a calendar day can be chosen exactly when its midnight is not before now and it falls Monday to Friday |
| `BookingWizard.Enabled` | src/components/AppointmentBooking.tsx:183-435 | which control the page renders on which step: on the confirmation page only its two buttons, both restarting the wizard; on the service step only the service cards; the form submits only on the details step with the required name and email filled in |
| `BookingWizard.EventKeepsConsistent` | src/components/AppointmentBooking.tsx:251-435 | every control the page renders for a step keeps the state consistent: offered service past the service step, available slot from details on, a date on the confirmation page, a working-day date from the time step on, not sending |
| `BookingWizard.RunKeepsConsistent` | src/components/AppointmentBooking.tsx:183-435 | any sequence of rendered controls keeps that consistency |
| `BookingWizard.ConfirmedBookingIsComplete` | src/components/AppointmentBooking.tsx:158-161 | from the first render, for any sequence of actions in which no control is used while a submit is in flight, the confirmation page shows an offered service, an available slot, a Monday-to-Friday date, a non-empty name and a non-empty email |
| `JsText.Trim` | src/components/AdminPanel.tsx:74 | `!content.trim()` holds exactly when every character is JavaScript whitespace |
| `JsText.TrimStart` | src/components/AdminPanel.tsx:74 | the result is the longest suffix that does not start with whitespace, and everything cut is whitespace |
| `JsText.TrimEnd` | src/components/AdminPanel.tsx:74 | the result is the longest prefix that does not end with whitespace, and everything cut is whitespace |
| `AdminPosts.AdminPanel.constructor` | src/components/AdminPanel.tsx:21-28 | the first render: no posts, nothing being edited, the add form on twitter / '' / '' / 'Smart Booking Pro', storage as the browser has it |
| `AdminPosts.AdminPanel.Load` | src/components/AdminPanel.tsx:31-66 | a saved list is used as it is and storage is unchanged; with nothing saved the list becomes the three default posts (ids '1', '2', '3' on twitter, linkedin, instagram) and is written to storage; either way storage equals the list afterwards |
| `AdminPosts.AdminPanel.SavePosts` | src/components/AdminPanel.tsx:68-71 | the list is replaced and the storage slot equals it |
| `AdminPosts.DefaultPosts` | src/components/AdminPanel.tsx:37-63 | three posts dated today, yesterday and the day before, with distinct ids, the 'Smart Booking Pro' author, no url and non-empty content |
| `AdminPosts.PostFromDraft` | src/components/AdminPanel.tsx:76-83 | the new post takes the given id and date, the draft's platform, author and untrimmed content, and a non-empty engagement: the draft's, or '0 likes, 0 comments' when it is empty |
| `AdminPosts.AdminPanel.AddPost` | src/components/AdminPanel.tsx:73-94 | content that is blank after trimming changes neither the list, nor storage, nor the form; otherwise the new post (content untrimmed, an empty engagement replaced by '0 likes, 0 comments') comes first and the old posts follow unchanged and in order, storage mirrors the list, and the form resets |
| `AdminPosts.AdminPanel.UpdatePost` | src/components/AdminPanel.tsx:96-104 | with nothing being edited nothing changes; otherwise every post with the edited id is replaced, storage mirrors the list and editing ends |
| `AdminPosts.AdminPanel.DeletePost` | src/components/AdminPanel.tsx:106-109 | the list becomes `RemoveById` of the old one and storage mirrors it |
| `AdminPosts.AdminPanel.StartEditing` | src/components/AdminPanel.tsx:263 | the chosen post becomes the one being edited; the list and storage are untouched |
| `AdminPosts.AdminPanel.ReviseEditing` | src/components/AdminPanel.tsx:198-221 | the edit form changes the platform, engagement and content of the edited post and keeps its id |
| `AdminPosts.AdminPanel.CancelEditing` | src/components/AdminPanel.tsx:230 | editing ends; the list and storage are untouched |
| `AdminPosts.AdminPanel.ReviseDraft` | src/components/AdminPanel.tsx:150-177 | the add form's platform, engagement and content change and its author stays |
| `AdminPosts.ReplaceById` | src/components/AdminPanel.tsx:99-101 | same length; each position holds the edited post if its id matched and the old post otherwise |
| `AdminPosts.ReplaceByIdKeepsIds` | src/components/AdminPanel.tsx:99-101 | replacing keeps every id in its position |
| `AdminPosts.RemoveById` | src/components/AdminPanel.tsx:107 | a post survives exactly when it was there and has another id; the length drops by the number of matching posts; an absent id leaves the list identical |
| `AdminPosts.RemoveByIdDistributes` | src/components/AdminPanel.tsx:107 | removing from a concatenation removes from each part, so the survivors keep their relative order |
| `AdminPosts.RemoveByIdIdempotent` | src/components/AdminPanel.tsx:106-109 | afterwards no post has the id, and deleting it again changes nothing |
| `BookingsDb.Database.CountBookings` | smart-booking-backend/routes/bookingStats.js:15-17 | `COUNT(*)` gives one row holding the number of rows as decimal text, or the error when the query throws |
| `BookingsDb.Database.CountDistinctEmails` | smart-booking-backend/routes/bookingStats.js:20-22 | `COUNT(DISTINCT email)` gives one row holding the number of distinct emails, or the error |
| `BookingsDb.Database.InsertBooking` | smart-booking-backend/server.js:125-128 | a resolving insert appends exactly the row; a throwing one leaves the table unchanged |
| `JsText.ParseInt` | smart-booking-backend/routes/bookingStats.js:29-31 | `parseInt` of a blank string is NaN, and a number comes out only when the text holds a decimal digit |
| `JsText.ParseIntSkipsBlank` | smart-booking-backend/routes/bookingStats.js:29-31 | leading whitespace does not change what `parseInt` reads |
| `JsText.ParseIntOfDecimal` | smart-booking-backend/routes/bookingStats.js:29-31 | `parseInt` reads a count's decimal text back as exactly that count |
| `BookingStats.ParseCountOfCount` | smart-booking-backend/routes/bookingStats.js:29-31 | a count row the database returned is parsed to its count |
| `BookingStats.ParseCount` | smart-booking-backend/routes/bookingStats.js:29-31 | a missing count row, a null cell or an empty cell is read as 0; a non-empty cell of whitespace only is truthy and reads as NaN |
| `BookingStats.RoundedPercent` | smart-booking-backend/routes/bookingStats.js:34 | the result r satisfies r - 1/2 <= 100*s/t < r + 1/2, which is `Math.round` rounding halves up |
| `BookingStats.RoundedPercentBounds` | smart-booking-backend/routes/bookingStats.js:34 | a share between 0 and the total rounds to between 0 and 100, and the whole total to exactly 100 |
| `BookingStats.SuccessRate` | smart-booking-backend/routes/bookingStats.js:34 | 100 when the total is 0 or not a number; for a positive total, `RoundedPercent` of the two counts, which is 0 to 100 for a share of the total and exactly 100 when the counts agree; not a number when the numerator is not |
| `BookingStats.StatsFromRows` | smart-booking-backend/routes/bookingStats.js:29-41 | the reply is status 200 with no error and `lastUpdated` the given time; a count query that returned no row reads as 0 total bookings with rate 100, or 0 users |
| `BookingStats.StatsAcross` | smart-booking-backend/routes/bookingStats.js:12-52 | with each query reading its own table: any throwing query gives the 500 fallback; otherwise status 200 with `totalBookings` the first table's row count, `totalUsers` the second's distinct emails, and the rate `SuccessRate` of the first count and the third table's row count |
| `BookingStats.StatsResponse` | smart-booking-backend/routes/bookingStats.js:12-52 | with all three queries reading the same table: when all succeed, status 200 with `totalBookings` the row count, `totalUsers` the distinct emails, `successRate` 100; when any throws: status 500 with error 'Failed to fetch booking statistics' and 6, 1, 100 |
| `BookingStats.InsertBetweenQueries` | smart-booking-backend/routes/bookingStats.js:15-34 | a row inserted between the total and the "successful" query makes the rate `RoundedPercent(t + 1, t)`, the exact rounding of 100(t + 1)/t; that is above 100 exactly when t is at most 200 (the source's doubles agree except at t = 200, see Left out) |
| `BookingStats.OneExtraRowRate` | smart-booking-backend/routes/bookingStats.js:34 | on exact rationals, one row more than the total rounds above 100 exactly when the total is at most 200 |
| `BookingStats.GetBookingStats` | smart-booking-backend/routes/bookingStats.js:12-52 | the queries run in order and stop at the first failure; the reply is `StatsResponse` of the table |
| `Server.GetBookingStats` | smart-booking-backend/server.js:58-98 | server.js's copy of the stats handler gives the same reply as the router's |
| `Server.Mailer.SendMail` | smart-booking-backend/server.js:109-122 | a resolving send adds exactly the mail; a throwing one sends nothing |
| `Server.Intake` | smart-booking-backend/server.js:101-142 | a missing or empty message gives 400 'Message is required' with no mail and no row; a mail failure gives 500 with its message as `details` and no row; an insert failure gives 500 after the mail went; status 200 with `success: true` exactly when a row was inserted, and a row is inserted only after the mail |
| `Server.AnalyzeMessage` | smart-booking-backend/server.js:101-142 | the reply is `Intake`'s; the table gains exactly the row ('user@example.com', message) when `Intake` inserts and the outbox exactly the mail when it mails, and neither changes otherwise |
| `Server.AcceptedBookingIsCounted` | smart-booking-backend/server.js:122-133 | after an accepted request, stats whose queries succeed report one booking more, still at 100 percent |
| `Server.IntakeRowsAreOneUser` | smart-booking-backend/server.js:125-128 | every inserted row has the same email, so a table filled only by this endpoint reports at most one user |

## Left out

- Rendering, `alert` and `console` output, styling, the icons and the `lucide-react` and UI-kit components are not modelled. The page's controls appear only as `BookingWizard.Enabled`, which says on which step each control is shown.
- The submit handler awaits three requests. During that time the step stays 'details' and only the submit button is disabled (AppointmentBooking.tsx:417). The model treats a submit as one atomic step and does not model events that arrive while it is in flight.
- `BookingWizard.ConfirmedBookingIsComplete` covers only runs in which no control is used while a submit is in flight. In the source, the name and email inputs (AppointmentBooking.tsx:373-390), the Back button (:404-407) and the calendar (:309-313) stay usable during the three requests. Example: submit with name "A", then clear the name or click the selected day so that `onSelect(undefined)` clears the date, before the booking reply arrives. An ok reply still runs `setStep('confirmation')` (:161). The confirmation page then shows an empty name (:213) or no date (:204).
- React's batching of state updates is not modelled. Each handler's updates take effect in order.
- `date-fns` formatting is not modelled. The requests carry the chosen `Day` rather than its formatted text.
- `BookingWizard.Day` takes the midnight instant and the weekday as given. Time zones and the calendar arithmetic that links the two are not modelled.
- The network is not modelled. Each request's outcome is an input: ok with a body, not ok, or thrown. Reading a JSON body that fails counts as thrown. The body of the analysis reply is opaque text.
- `localStorage` is modelled as a slot holding the list itself. The model assumes `JSON.stringify` followed by `JSON.parse` gives back the same list. A corrupted entry, which would make `JSON.parse` throw, and a stored empty string, which the `if (savedPosts)` test treats as nothing saved, are not represented.
- Post ids from `Date.now()` and dates from `toLocaleDateString()` are parameters.
- `BookingStats.StatsResponse`: the three queries are modelled as reading one snapshot of the table, and so is `BookingStats.GetBookingStats`, which reads `db.bookings` once. The handler runs them as separate calls with no transaction. `BookingStats.StatsAcross` gives the reply when each query sees its own table, and `BookingStats.InsertBetweenQueries` shows the effect of an insert in between. Interleaving with concurrent requests is otherwise not modelled.
- `Server.Mailer`: server.js:35 calls `nodemailer.createTransporter`. nodemailer's factory is named `createTransport`, so loading server.js as written would throw a TypeError before `app.listen`. The `Server` models describe both handlers as they would run once a working transport exists. The factory call and module loading are not modelled.
- `BookingWizard.Enabled` models the browser's checks on the `required` name and email inputs as non-emptiness only. The format check of `type="email"` is not modelled.
- `JsText.ParseInt` computes exact integers. Above 2^53, JavaScript numbers lose precision, and a parsed `-0` is reported as 0.
- `BookingStats.RoundedPercent` rounds the exact rational 100*s/t. Floating-point error in `(s / t) * 100` near a half is not modelled. One such case is t = 200 in `BookingStats.InsertBetweenQueries`: the exact 100.5 rounds to 101, but the source computes 100.49999999999999 and gets 100.
- The `message` body field is modelled as a string or absent. Other JSON values (numbers, booleans, objects) are not modelled.
- The mail's sender and recipient come from the environment. They are not modelled; a mail holds its subject, the message and the timestamp.
- The HTML of the mail is not modelled. That includes the unescaped message inside it.
- `GET /` (a health payload with a timestamp), `app.listen`, CORS, the middleware and the connection pool are not modelled. They hold no decisions.
- SQL is not modelled beyond the three statements. Each query or insert succeeds or throws as its `Effect` input says.
- `src/hooks/useSocialMedia.tsx` and `src/hooks/useBookingStats.tsx` are not part of this model: they are network fetching and parsing with fixed fallbacks. The static pages (hero, navigation, footer, privacy, terms, index) and `ui/button.tsx` hold markup only.
