# MLRIT court booking — a verified model of its core rules

The MLRIT court-booking app is a campus booking site. It has an Express and
Mongoose back end with two authentication routes, a React client (a session
context and signup, booking, "My Bookings", courts and admin pages) and a
Next.js front end (a booking wizard and a profile page). The site's logic is
a small set of rules inside UI handlers and the two routes, and this project
models those rules in Dafny and proves their properties.

- `user_model.dfy` (`UserModel`): the Mongoose `User` schema. It covers the
  fields, the defaults that `new User(...)` fills in, the `required`
  validators that make `save()` fail, and the unique email index, which the
  model gets by keying the collection on email.
- `auth_routes.dfy` (`AuthRoutes`): `POST /signup` and
  `POST /google/callback` as methods of a `UserStore` class whose state is a
  map from email to user. bcrypt, the Google token verifier, generated ids and
  the clock are parameters. Each awaited call that can throw is a `Step`, and
  a throw gives a 500 reply.
- `auth_context.dfy` (`AuthContext`): the client session. It holds the
  current user and its copy in local storage, and models the mock `login`,
  `loginWithGoogle`, `signup`, `logout` and the restore on mount.
- `signup_form.dfy` (`SignupForm`): the signup page. It covers the
  field-by-field validator with its exact messages, the unanchored email
  pattern `\S+@\S+\.\S+`, error clearing on edit, and the submit guard.
- `slot_booking.dfy` (`SlotBooking`): the React booking page. It covers the
  slot toggle, the availability gate on clicks, the running total, and the
  confirm guard. It also models the in-place sort that happens when the
  summary line renders.
- `booking_flow.dfy` (`BookingFlow`): the Next.js booking wizard. It covers
  the two-step state machine, the required-field guard, the append to the
  stored list, and the 16-slot hour grid.
- `my_bookings.dfy` (`MyBookings`): the upcoming and past tabs, cancellation
  through the modal, and where the Cancel button appears.
- `profile.dfy` (`Profile`): the stats cards, cancellation by removal, and
  the date-based status badge.
- `courts.dfy` (`Courts`): the sport filter, the `sport` URL parameter, and
  the free-slot count for the selected date.
- `admin.dfy` (`Admin`): the admin guard, the mock dashboard, and adding a
  court.
- `text.dfy` (`Text`): the JavaScript string operations the pages rely on:
  `trim`, `includes`, the default `sort`, and capitalisation.

Dates are integers. On "My Bookings", a booking's date and today's local
midnight are time stamps. On the profile page, `dateValue` stands for parsing
a booking's date string, `now` is the current instant, and `sameDay` stands
for comparing two `toDateString()` values. Local storage is a field of the
page or session that holds the value stored under its key.

## Model

| member | source | states |
|---|---|---|
| UserModel.Valid | models/User.js:4-12 | The `required` validators: a document can be saved exactly when its name and email are non-empty. Its consequences for built documents are stated by `ValidIffRequired`. |
| UserModel.NewDocument | models/User.js:19-31 | The document keeps the given fields. A missing `auth_provider` becomes "google" and a missing `role` becomes "user". |
| UserModel.EmailsUnique | models/User.js:8-12 | In a valid collection, no two documents share an email. |
| UserModel.ValidIffRequired | models/User.js:4-15 | A document passes validation exactly when name and email are non-empty. Dropping the optional password does not change that. |
| AuthRoutes.RequestedUserType | api/routes/auth.js:26 | An absent or empty `userType` becomes "student". Any other value is kept. |
| AuthRoutes.LocalAccount | api/routes/auth.js:19-28 | The signup document stores the hash, not the submitted password. It has provider "local", role "user" and no picture. |
| AuthRoutes.SignupBodyAsWritten | api/routes/auth.js:32-40 | As written, the 201 body's `userType` is read back from a document that has no such path, so it is always absent. |
| AuthRoutes.SignupBodyDropsUserType | api/routes/auth.js:26-38 | A concrete signup where the route computes "student" but the body as written does not carry it. |
| AuthRoutes.SignupBody | api/routes/auth.js:32-40 | The corrected 201 body carries the stored id, name and email plus the defaulted `userType`. It has no password field. |
| AuthRoutes.GoogleAccount | api/routes/auth.js:59-65 | A first Google login creates a document with the payload's name, email and picture, no password, and provider "google". |
| AuthRoutes.GoogleBody | api/routes/auth.js:69-76 | The 200 body holds the user's name, email and picture. |
| AuthRoutes.UserStore.constructor | models/User.js:34 | The collection starts valid and holds no user. |
| AuthRoutes.UserStore.Signup | api/routes/auth.js:10-45 | A failing `findOne` gives 500. The reply is 409 exactly when `findOne` succeeds and the email is known. It is 500 exactly when `findOne` throws, or the email is new and hashing, saving or validation fails. A new account is made exactly when nothing throws and validation passes: it is filed under the email with the hashed password. The 201 body is the corrected `SignupBody`, and it differs from the body the route sends (`SignupBodyAsWritten`) only in `userType`. Every failure leaves the store as it was. |
| AuthRoutes.UserStore.GoogleCallback | api/routes/auth.js:47-84 | A throwing verifier gives 500. A missing payload gives 401. A known email returns that user and creates nothing. Otherwise exactly one Google account is added, unless `save` fails (500). |
| AuthRoutes.SignupTwice | api/routes/auth.js:14-30 | Two signups with one email answer 201 then 409, and the stored record is still the first account. |
| AuthRoutes.GoogleLoginTwice | api/routes/auth.js:56-76 | A repeated Google login answers the same 200 body and leaves exactly one account. |
| AuthContext.MockUser | src/contexts/AuthContext.tsx:49-54 | The userType is "admin" and the name is "Admin User" exactly when the email contains "admin". Otherwise they are "student" and "John Doe". |
| AuthContext.Session.constructor | src/contexts/AuthContext.tsx:33 | Before the mount effect runs, nobody is logged in, and storage holds what it held before. |
| AuthContext.Session.IsAuthenticated | src/contexts/AuthContext.tsx:107 | `isAuthenticated` is true exactly when a user is held. `Login`, `Signup` and `Logout` state what it becomes. |
| AuthContext.Session.Restore | src/contexts/AuthContext.tsx:35-41 | A stored session becomes the current user. Without one, nothing changes. |
| AuthContext.Session.Login | src/contexts/AuthContext.tsx:43-61 | Login succeeds exactly when email and password are both non-empty. Then the session user is the mock user and is also the stored one. Otherwise nothing changes. |
| AuthContext.Session.LoginWithGoogle | src/contexts/AuthContext.tsx:63-66 | The given user becomes the session user and the stored one. |
| AuthContext.Session.Signup | src/contexts/AuthContext.tsx:68-93 | Signup returns true exactly for an ok response, which logs its user in and stores it. A response that is not ok, or a throw, leaves the session untouched. |
| AuthContext.Session.Logout | src/contexts/AuthContext.tsx:95-98 | Nobody is logged in, nothing is stored, and `IsAuthenticated` is false. |
| AuthContext.LoginSurvivesReload | src/contexts/AuthContext.tsx:35-98 | After a login, a reload restores the same user. After a logout, a reload finds nobody. |
| SignupForm.AdminNotSelectable | src/pages/SignupPage.tsx:28-32 | The selectable user types are the three listed ones, and "admin" is not among them. |
| SignupForm.MatchesEmail | src/pages/SignupPage.tsx:53 | The scanner accepts exactly the strings that somewhere contain a non-space run, "@", a non-space run, a "." and a non-space character. |
| SignupForm.ScanFindsPattern | src/pages/SignupPage.tsx:53 | When the pattern occurs, the scan from the left finds an occurrence. |
| SignupForm.EmailExamples | src/pages/SignupPage.tsx:53 | "a@b.c" and an address surrounded by spaces match. "a@b", "a @b.c" and "@b.c" do not. |
| SignupForm.FieldError | src/pages/SignupPage.tsx:45-67 | A field has no message exactly when its rule holds: a trimmed name of 2 or more characters, a non-empty matching email, a password of 6 or more, a non-empty confirmation equal to the password. The "required" message appears exactly when the field is empty (the name after trimming). The user type never gets a message. |
| SignupForm.FormValidIff | src/pages/SignupPage.tsx:45-67 | No field has a message exactly when the trimmed name has at least 2 characters, the email matches, the password has at least 6 characters, and the confirmation equals it. |
| SignupForm.EmptyIffNoMessage | src/pages/SignupPage.tsx:43-70 | An error map that agrees with the rules is empty exactly when no field has a message. |
| SignupForm.ValidateForm | src/pages/SignupPage.tsx:42-71 | Each field gets at most one message: the first rule in its chain that fails. The user type never gets one, and the result is true exactly when the map is empty. |
| SignupForm.ErrorTexts | src/pages/SignupPage.tsx:46-66 | The shown errors have the same fields, and each shows its message's non-empty text. |
| SignupForm.HandleChange | src/pages/SignupPage.tsx:34-40 | The edited field takes the new value and every other field is kept. The edited field's message, if any, is blanked. Every other message stays, and no field is added. |
| SignupForm.HandleSubmit | src/pages/SignupPage.tsx:73-85 | `signup` is called exactly when validation passes, which happens exactly when the validity conditions hold. It gets the trimmed name and the other fields as typed. |
| Text.Trim | src/pages/SignupPage.tsx:45-47 | The result is a contiguous piece of the input with only white space around it, and it starts and ends with a non-space. |
| Text.TrimEmptyIff | src/pages/SignupPage.tsx:45 | The trimmed name is empty exactly when every character is white space. |
| Text.Includes | src/contexts/AuthContext.tsx:51-53 | `includes` is true exactly when the substring occurs at some position. |
| Text.SortStrings | src/pages/BookingPage.tsx:245 | The result is sorted and is a permutation of the input. |
| Text.Capitalize | src/pages/AdminPage.tsx:132 | The length is kept, the first character is upper-cased, and the rest is unchanged. |
| SlotBooking.Without | src/pages/BookingPage.tsx:88 | Filtering drops every copy of the slot and keeps everything else, each element as many times as before. |
| SlotBooking.WithoutConcat | src/pages/BookingPage.tsx:88 | Filtering distributes over concatenation, so the remaining slots keep their order. |
| SlotBooking.WithoutAbsent | src/pages/BookingPage.tsx:86-88 | Filtering out a slot that is not selected changes nothing. |
| SlotBooking.Toggle | src/pages/BookingPage.tsx:85-91 | After a toggle, the slot is selected exactly when it was not selected before. Every other slot keeps its selection. |
| SlotBooking.ToggleEffect | src/pages/BookingPage.tsx:85-91 | Toggling an unselected slot appends it at the end. Toggling a selected one removes every copy of it and keeps the rest. |
| SlotBooking.ToggleTwice | src/pages/BookingPage.tsx:85-91 | Toggling an unselected slot twice restores the selection exactly. |
| SlotBooking.ToggleKeepsNoDuplicates | src/pages/BookingPage.tsx:85-91 | A selection without repeats stays without repeats. |
| SlotBooking.ToggleLength | src/pages/BookingPage.tsx:85-91 | In a selection without repeats, a toggle adds or removes exactly one slot. |
| SlotBooking.Click | src/pages/BookingPage.tsx:227-228 | A click on an unavailable slot leaves the selection unchanged. |
| SlotBooking.ClicksKeepOnlyAvailable | src/pages/BookingPage.tsx:227-228 | After any sequence of clicks, every selected time belongs to an available slot. |
| SlotBooking.CalculateTotal | src/pages/BookingPage.tsx:93-95 | The total is 0 with no court or no selection. It is never negative for a non-negative rate, and with a positive rate and some slot selected it is at least one hour's rate. |
| SlotBooking.TotalFollowsToggle | src/pages/BookingPage.tsx:93-95 | Selecting a slot adds one hourly rate to the total and deselecting one subtracts it. With no court, the total is 0. |
| SlotBooking.BookingPage.constructor | src/pages/BookingPage.tsx:42-83 | The mock court is loaded only for an authenticated visitor, with id "1" when the route gives none. The slots are the mock grid and nothing is selected. |
| SlotBooking.BookingPage.ClickSlot | src/pages/BookingPage.tsx:227 | The selection becomes `Click` of the old one, and nothing else changes. |
| SlotBooking.BookingPage.ShowSelectedSlots | src/pages/BookingPage.tsx:245 | Rendering the summary sorts the selection state in place, and shows a sorted permutation of it. |
| SlotBooking.BookingPage.HandleBooking | src/pages/BookingPage.tsx:97-124 | An empty selection gives the warning and leaves the state unchanged. Otherwise the page ends with the confirmation and confetti shown and loading off. |
| SlotBooking.BookAfterClicks | src/pages/BookingPage.tsx:85-114 | After any clicks, the confirmation appears exactly when something is selected. The selection is duplicate-free and holds only available times. |
| BookingFlow.CourtsCatalogue | app/booking/page.tsx:14-78 | The catalogue has 7 courts with ids 1 to 7 in order and positive prices. |
| BookingFlow.TimeSlotsAreHours | app/booking/page.tsx:80-97 | The grid has 16 labels, and label i is the hour range from 6+i to 7+i. |
| BookingFlow.HourRangeJoins | app/booking/page.tsx:80-97 | Each hour range ends where the next one starts. |
| BookingFlow.HourRangeAscending | app/booking/page.tsx:80-97 | A later hour range sorts after an earlier one. |
| BookingFlow.TimeSlotsGrid | app/booking/page.tsx:80-97 | The grid runs from 06:00 to 22:00. It is contiguous and strictly ascending. |
| BookingFlow.BookingFlow.constructor | app/booking/page.tsx:106-113 | The flow starts at step 1 with nothing chosen. The stored list is what local storage held. |
| BookingFlow.BookingFlow.SelectCourt | app/booking/page.tsx:116-119 | The court is recorded and the flow moves to step 2. All other fields are kept. |
| BookingFlow.BookingFlow.ChangeCourt | app/booking/page.tsx:278 | The flow goes back to step 1 and all other fields are kept. |
| BookingFlow.BookingFlow.Edit | app/booking/page.tsx:294-353 | Only the edited input changes. |
| BookingFlow.BookingFlow.Complete | app/booking/page.tsx:122 | The required-field guard: a court is chosen and date, time, name and email are non-empty. The notes are not required. `HandleBooking` states its effect. |
| BookingFlow.BookingFlow.HandleBooking | app/booking/page.tsx:121-145 | Booking succeeds exactly when court, date, time, name and email are all given. Then exactly one "Confirmed" booking with those values and the notes is appended at the end. Otherwise nothing changes. |
| BookingFlow.BookThroughFlow | app/booking/page.tsx:116-141 | A full pass appends exactly one booking and keeps the earlier ones. Leaving the name empty appends nothing, and switching court in between keeps what was typed. |
| MyBookings.Upcoming | src/pages/MyBookingsPage.tsx:79-84 | A booking is upcoming exactly when its date is on or after today's midnight and it is confirmed. |
| MyBookings.Past | src/pages/MyBookingsPage.tsx:86-91 | A booking is past exactly when its date is before today or it is not confirmed. |
| MyBookings.TabsPartition | src/pages/MyBookingsPage.tsx:79-91 | Every booking is in exactly one tab. The two tabs together have the list's multiset and length. |
| MyBookings.Cancel | src/pages/MyBookingsPage.tsx:93-100 | Cancelling keeps the length. Bookings with the id become cancelled and every other booking is unchanged. |
| MyBookings.CancelledNotUpcoming | src/pages/MyBookingsPage.tsx:79-100 | After a cancel, no booking with that id is upcoming. |
| MyBookings.CancelIdempotent | src/pages/MyBookingsPage.tsx:94-100 | Cancelling twice is the same as cancelling once. |
| MyBookings.CancelNoOp | src/pages/MyBookingsPage.tsx:94-100 | Cancelling an unknown id, or one that is already cancelled, changes nothing. |
| MyBookings.Current | src/pages/MyBookingsPage.tsx:124 | The shown tab lists exactly the bookings that are upcoming on the upcoming tab, and exactly the others on the past tab. |
| MyBookings.ShowCancel | src/pages/MyBookingsPage.tsx:243 | The Cancel button is shown only on the upcoming tab, and never under a cancelled or completed booking. Every confirmed booking on the upcoming tab gets one. |
| MyBookings.CancelOfferedOnUpcoming | src/pages/MyBookingsPage.tsx:243 | The Cancel button appears under every upcoming booking and under no past one. |
| MyBookings.CancelShrinksUpcoming | src/pages/MyBookingsPage.tsx:79-100 | Cancelling an upcoming id shortens the upcoming tab. |
| MyBookings.CancelNeverGrowsUpcoming | src/pages/MyBookingsPage.tsx:79-100 | Cancelling never lengthens the upcoming tab. |
| MyBookings.MyBookingsPage.constructor | src/pages/MyBookingsPage.tsx:23-25 | The page shows the loaded bookings on the upcoming tab, with the modal closed. |
| MyBookings.MyBookingsPage.SelectTab | src/pages/MyBookingsPage.tsx:140-150 | Only the tab changes. |
| MyBookings.MyBookingsPage.ClickCancel | src/pages/MyBookingsPage.tsx:243-249 | The modal opens for the clicked booking only when its button is shown. |
| MyBookings.MyBookingsPage.CloseModal | src/pages/MyBookingsPage.tsx:267-281 | The modal closes and the bookings are kept. |
| MyBookings.MyBookingsPage.HandleCancelBooking | src/pages/MyBookingsPage.tsx:93-109 | The bookings become `Cancel` of the old list and the modal closes. |
| MyBookings.MyBookingsPage.ConfirmCancel | src/pages/MyBookingsPage.tsx:261-288 | Confirming in the open modal cancels its booking id. |
| MyBookings.CancelFromUpcoming | src/pages/MyBookingsPage.tsx:93-109 | Cancelling an upcoming booking through the modal keeps every booking. Its id leaves the upcoming tab, which gets shorter. |
| Profile.UpcomingOf | app/profile/page.tsx:40 | The upcoming bookings are exactly those whose date is at or after `now`. |
| Profile.TotalSpent | app/profile/page.tsx:41 | The amount spent is 0 for no bookings and never negative when no price is. |
| Profile.TotalSpentConcat | app/profile/page.tsx:41 | The amount spent adds up over concatenation. |
| Profile.ComputeStats | app/profile/page.tsx:34-48 | The stats are the count, the number upcoming (bounded by the count), and the sum of `court.price`. |
| Profile.Remove | app/profile/page.tsx:51 | Removal keeps exactly the bookings whose id differs. |
| Profile.WithId | app/profile/page.tsx:51 | These are exactly the bookings a cancel drops. |
| Profile.RemoveConcat | app/profile/page.tsx:51 | Removal distributes over concatenation, so order is kept. |
| Profile.RemoveSplits | app/profile/page.tsx:50-65 | The kept and dropped bookings together give the count and the amount spent. |
| Profile.RemoveAbsent | app/profile/page.tsx:51 | Cancelling an unknown id changes nothing. |
| Profile.StatusText | app/profile/page.tsx:80-91 | The label is "Completed" exactly for a date before now. It is "Today" exactly for a later date on the same day, and "Upcoming" exactly for one on another day. |
| Profile.StatusColor | app/profile/page.tsx:67-78 | The colour is grey exactly for a date before now. It is green exactly for a later date on the same day, and blue exactly for one on another day. |
| Profile.StatusColorMatchesText | app/profile/page.tsx:67-91 | Grey goes with "Completed", green with "Today", and blue with "Upcoming". |
| Profile.UpcomingCountMatchesBadges | app/profile/page.tsx:38-91 | Taken at the same instant, the upcoming count covers exactly the bookings whose badge is not "Completed". |
| Profile.RemoveKeepsUpcoming | app/profile/page.tsx:56-58 | Cancelling never raises the upcoming count. |
| Profile.ProfilePage.constructor | app/profile/page.tsx:34-48 | On mount, the stored list is shown and counted. |
| Profile.ProfilePage.CancelBooking | app/profile/page.tsx:50-65 | The shown list becomes the list without the id, and storage holds the same list. The stats are recomputed from it. |
| Profile.CancelOnProfile | app/profile/page.tsx:50-65 | The count and amount fall by exactly the dropped bookings. The upcoming count does not rise, and storage equals what is shown. |
| Courts.OfType | src/pages/CourtsPage.tsx:213 | The result is exactly the courts of the type. |
| Courts.FilterByType | src/pages/CourtsPage.tsx:208-217 | "all" shows the list as loaded. Any other type shows exactly the courts of that type. The list never grows. |
| Courts.FilterAllIsIdentity | src/pages/CourtsPage.tsx:208-217 | With "all", the whole list is shown. |
| Courts.OfTypeConcat | src/pages/CourtsPage.tsx:213 | The filter distributes over concatenation, so catalogue order is kept. |
| Courts.FilterByTypeExact | src/pages/CourtsPage.tsx:208-217 | Any other type shows each court of that type as often as in the catalogue, and no other court. |
| Courts.OfTypeCounts | src/pages/CourtsPage.tsx:213 | The filter keeps the multiplicity of each matching court and drops the rest. |
| Courts.SelectedTypeFromUrl | src/pages/CourtsPage.tsx:34-41 | A present, non-empty `sport` parameter becomes the selected type. Otherwise the type is kept. |
| Courts.FindByDate | src/pages/CourtsPage.tsx:220-222 | The result is none exactly when no entry has the date. Otherwise it is the first entry with that date. |
| Courts.CountAvailable | src/pages/CourtsPage.tsx:223 | The count is at most the number of slots. It equals that number exactly when all slots are free, and is 0 exactly when none are. |
| Courts.GetAvailableSlots | src/pages/CourtsPage.tsx:219-224 | The count is 0 without an entry for the date. Otherwise it is the free slots of the first entry, at most its slot count. |
| Courts.NoFreeSlotsShowsZero | src/pages/CourtsPage.tsx:219-224 | With no free slot on the date the count shows 0, and with no entry for the date it shows 0 too. |
| Admin.IsAdmin | src/pages/AdminPage.tsx:61 | Only a signed-in user passes the guard, and a signed-in user passes exactly when the user type is "admin". |
| Admin.MockLoginIsAdmin | src/pages/AdminPage.tsx:173 | With the mock login, the dashboard renders exactly for an email that contains "admin". |
| Admin.FromForm | src/pages/AdminPage.tsx:128-134 | The new court has the given id and status active. It copies name, location, capacity and price from the form, and its type is the form's type with the first letter upper-cased. |
| Admin.DefaultTypeCapitalized | src/pages/AdminPage.tsx:52-58 | The default sport becomes "Basketball". |
| Admin.ApplyEdit | src/pages/AdminPage.tsx:349-379 | An edit changes only its own form field. |
| Admin.AdminPage.constructor | src/pages/AdminPage.tsx:43-58 | The page starts with zero stats, no courts, the modal closed and the default form. |
| Admin.AdminPage.Mount | src/pages/AdminPage.tsx:60-126 | A non-admin is redirected and nothing is loaded. An admin gets the mock stats and courts. |
| Admin.AdminPage.OpenAddCourt | src/pages/AdminPage.tsx:291 | The modal opens and nothing else changes. |
| Admin.AdminPage.EditForm | src/pages/AdminPage.tsx:349-379 | The form becomes `ApplyEdit` of the old form. |
| Admin.AdminPage.HandleAddCourt | src/pages/AdminPage.tsx:128-145 | Exactly one court from the form is appended at the end. The form resets to its defaults and the modal closes. |
| Admin.AddCourtAsAdmin | src/pages/AdminPage.tsx:60-175 | An admin sees the three mock courts followed by the new active, capitalised court, and the form at its defaults. Anyone else is redirected and sees nothing. |

## Left out

- Network and storage plumbing is not modelled. Express routing, `fetch`, JSON (de)serialisation and the `localStorage` API are left out; storage is a field holding the stored value.
- A stored entry that fails to parse is not modelled; the model assumes a well-formed stored value.
- Navigation, notifications, `alert`, and the `setTimeout` delays (the one-second mock login, and the two- and three-second booking delays) are not modelled. A method ends in the state its handler reaches after its last awaited step.
- AuthRoutes.UserStore.Signup: does not state that clear text is never stored, because the hash is an arbitrary function parameter. The model only states that the stored password is `hash(password, salt)`.
- AuthRoutes.UserStore.Signup: a `genSalt`/`hash` throw and one caused by a missing password are both the `HashPassword` step. Validation of a missing email or name happens at `save`.
- AuthRoutes.UserStore.Signup: the 201 body is the corrected `SignupBody`, which carries the requested or defaulted `userType`. The route as written sends `SignupBodyAsWritten`, where `userType` is absent, as "## Findings" records. The method's contract states that the two bodies agree on every other field.
- AuthRoutes.UserStore.GoogleCallback: a `HashPassword` fault cannot happen in this route and is ignored. The model adds nothing about `findOne` with an undefined email.
- Concurrency between `findOne` and `save` on a live server is not modelled. Each request runs to completion.
- Mongoose's `_id` generation and `Date.now` are parameters. The `created_at` type coercion is not modelled.
- Text.Trim: strings are sequences of code points. JavaScript strings are UTF-16, so `length` differs for characters outside the Basic Multilingual Plane. The default `sort` compares code units, which agrees on the ASCII slot times used here.
- Text.Capitalize: `toUpperCase` is modelled for ASCII letters only.
- Admin.ApplyEdit: `parseInt` is not modelled. The number inputs pass an integer, so `NaN` is not represented.
- Invalid dates (`new Date` of a malformed string) are not modelled. `toDateString` and the time zone are the `sameDay` parameter.
- My Bookings' mock list and its date arithmetic are not modelled. The page is built from any loaded list.
- The courts page's mock catalogue and its field `rating` (a float) are not modelled. Nor are images, and the pages' presentational `getStatusColor` / `getSportIcon` / option lists, except where listed above.
- The slot grid's per-date reload is not modelled. The mock slots are the same for every date (src/pages/BookingPage.tsx:62-83).
- The game page, the animated counter and the landing/navigation components are not modelled. They hold random, timer-driven or presentational code with no stateable rule.
- The server entry point, `main.tsx`, `App.tsx` and the login page are not part of this model. They are glue code without rules.
- There is no double-booking or slot-conflict logic anywhere in the code. Confirming a booking does not change availability, and the model does not add such a check.

## Findings

| source | as written | input that shows it | evidently intended | confidence | as-written member | corrected member |
|---|---|---|---|---|---|---|
| api/routes/auth.js:26 | The route passes the defaulted user type to `new User`, but the schema in models/User.js has no such path. Strict mode drops the value, so the user type the 201 body reads back at line 38 is undefined. | a signup without `userType` (or with "staff") | the created user comes back with the requested or defaulted user type | medium, not executed | AuthRoutes.SignupBodyAsWritten, AuthRoutes.SignupBodyDropsUserType | AuthRoutes.SignupBody |
