# ClinicCare front end — a Dafny model

This project models the logic of the ClinicCare web client, a React front end
where patients book appointments with doctors and doctors publish the half-hour
slots they are free. The rendering is left out. The model keeps the decisions
the screens make and the state they keep. It covers:

- **Session** (`src/services/auth.js`). The logged-in identity is kept in
  browser storage under `auth_user`. It covers the one-time move of the
  legacy key `auth`, and the getters `getAuth`, `isLoggedIn` and `getRole`.
  Storage is a map from keys to stored texts. Each text is a JSON-encoded
  record, the empty string, or text that does not parse.
- **Schedule** (shared by `Appointment.jsx` and `DoctorDashboard.jsx`). This
  is the 15-label slot domain built by `buildSlots`, and the `YYYY-MM-DD`
  date text of `fmtDateLocal` and `toYMD`.
- **Booking** (`src/pages/Appointment.jsx`). It covers:
  - how the doctor record is normalised and looked up;
  - the set of open slots built from the availability rows;
  - the selection state, with its cancelled loads;
  - the booking request sent on confirmation.
- **Availability** (`src/pages/DoctorDashboard.jsx`). The doctor's
  day-to-slots map is edited by toggle, clear and load. The model also covers
  the save payload, the sorted summary chips, and the appointment list mapping.
- **Appointments** (`src/pages/MyAppointments.jsx`). It covers:
  - the upcoming and cancelled tabs, and their counts;
  - cancelling and rebooking;
  - the date and time texts, and the link targets.
- **Registration** (`src/pages/Register.jsx`). It covers the role taken from
  the query string, the ordered validation rules, the request body, and the
  form state.
- **ProfileEditor** (`src/pages/Profile.jsx`). It covers:
  - how the loaded profile is normalised;
  - field edits;
  - the patient and doctor save decisions;
  - the password-change checks.
- **Navigation** (`src/App.jsx`, `src/components/Navbar.jsx`). It covers the
  route table behind its `RequireAuth` and `RequireRole` guards, the logo
  target, the links of the bar, and logout.

The module **Js** models the JavaScript semantics the code relies on:
truthiness, `||` and `??` on values, `String()`, `Number()` on text, and
`[a, b].filter(Boolean).join(" ")`. The module **Text** models `slice`,
`split(...)[0]`, `trim()`, `padStart`, decimal digits, and the default `sort()`
order.

Screens whose state changes in place are classes. Their methods state the new
state through the pure functions beside them, and lemmas prove what those
functions promise.

Notable behaviours of the code:
- The slot domain has 15 labels, from "09:00" to "16:00", because the
  half-hour after 16:00 is never pushed. The comments in both files say
  16:30.
- The booking screen's open set is not cut down to the slot domain. An open
  row at "17:00" is in the set. It is simply never offered as a button.
- A failed slot load on the booking screen keeps the previous open set. It
  does not empty it.
- The dashboard ignores `is_open` when it loads a day. Every row with a time is
  loaded as open.

Two behaviours of the code are recorded as lemmas. They are not treated as
defects:
- The logo sends a logged-in visitor whose role is neither "patient" nor
  "doctor" to "/search", and that page turns them away
  (`Navigation.HomeDestTurnsAwayOtherRoles`).
- Registration validates the address fields before trimming them. An address
  line of spaces passes validation and is then sent as ""
  (`Registration.BlankAddressLineSent`, `Registration.BlankAddressLinePasses`).

## Model

| member | source | states |
|---|---|---|
| Text.TrimIsSlice | src/pages/Register.jsx:93-96 | `trim()` returns a contiguous slice of its input. The slice neither starts nor ends with white space, and only white space was cut from either side. |
| Text.AllSpaceTrimsEmpty | src/pages/Register.jsx:107 | A text of nothing but white space trims to "". |
| Text.TrimIdempotent | src/pages/Register.jsx:107-110 | Trimming an already trimmed text changes nothing. |
| Text.DigitsTrimmed | src/pages/Register.jsx:110 | A run of digits is its own `trim()`. |
| Text.DecimalString | src/pages/Appointment.jsx:32-33 | `String(n)` of a natural number is a non-empty run of digits. It is one digit exactly when n < 10, and it has a leading zero only for 0. |
| Text.DecimalRoundTrip | src/pages/Appointment.jsx:32-33 | Reading the decimal text of n back gives n. |
| Text.Pad2Digits | src/pages/Appointment.jsx:32-33 | `padStart(2, "0")` of a number below 100 is its tens digit followed by its units digit. |
| Text.Sort | src/pages/DoctorDashboard.jsx:330 | The default `sort()` returns the same labels (the same multiset) in ascending code-point order. |
| Text.LexIrreflexive | src/pages/DoctorDashboard.jsx:330 | The order that sort uses never ranks a text before itself. |
| Text.LexTransitive | src/pages/DoctorDashboard.jsx:330 | The order that sort uses is transitive. |
| Text.LexTotal | src/pages/DoctorDashboard.jsx:330 | Of two different texts, the sort order ranks one before the other. |
| Text.LexAsymmetric | src/pages/DoctorDashboard.jsx:330 | The sort order never ranks two texts each before the other. |
| Js.JoinNonEmpty | src/pages/Appointment.jsx:107 | `[a, b].filter(Boolean).join(" ")` is empty exactly when both parts are empty. |
| Js.StringToNumber | src/pages/Register.jsx:116 | `Number(s)` of a text whose trim is all digits is that decimal value. |
| Js.NumberOfDecimal | src/pages/Register.jsx:116 | `Number(String(n))` is n for every natural n. |
| Js.NumberTextInjective | src/pages/Appointment.jsx:77 | Two natural ids have the same `String()` text exactly when they are equal, so the string comparison matches ids exactly. |
| Session.Normalize | src/services/auth.js:21-29 | The record `setAuth` builds has no undefined field. A missing id or role becomes null, missing names and email become "", and a falsy token becomes "". Every present value is kept, and the id's truthiness is unchanged. |
| Session.NormalizeIdempotent | src/services/auth.js:21-31 | Storing a record that `setAuth` built stores that same record again. |
| Session.Migrated | src/services/auth.js:5-14 | The legacy "auth" text moves to "auth_user" only when it is stored and "auth_user" is not. Otherwise storage is unchanged, and no other key is touched. |
| Session.MigrateIdempotent | src/services/auth.js:5-14 | Running the migration a second time changes nothing. |
| Session.AuthOf | src/services/auth.js:34-41 | `getAuth()` is the stored record exactly when a parsable record sits under "auth_user". It is null for a missing, empty or malformed entry. |
| Session.RoleOf | src/services/auth.js:52-54 | `getRole()` is a truthy role taken from the stored record, or null. |
| Session.LoggedInOf | src/services/auth.js:47-50 | `isLoggedIn()` holds exactly when a parsable record is stored under "auth_user" and its id is truthy. |
| Session.MountedId | src/pages/Profile.jsx:7-11 | The id a screen reads when it mounts is truthy exactly when `isLoggedIn()` holds. |
| Session.MountedRole | src/pages/Profile.jsx:7-12 | The mounted role is undefined when no record is stored. When it is truthy it equals `getRole()`; otherwise `getRole()` is null. |
| Session.SessionStore.constructor | src/services/auth.js:5-14 | Loading the module leaves storage as the migration makes it. |
| Session.SessionStore.MigrateOnce | src/services/auth.js:5-14 | The new storage is the migrated old storage. |
| Session.SessionStore.SetAuth | src/services/auth.js:21-32 | Stores and returns the normalised record, and changes no other key. `getAuth()` then returns it. The user is logged in exactly when the given id is truthy, and `getRole()` is its role or null. |
| Session.SessionStore.ClearAuth | src/services/auth.js:43-45 | Removes "auth_user" only. Afterwards `getAuth()` is null, nobody is logged in, and `getRole()` is null. |
| Session.SessionStore.GetAuth | src/services/auth.js:34-41 | `getAuth()` on the current storage is the stored record exactly when a parsable one is stored, and null otherwise. |
| Session.SessionStore.IsLoggedIn | src/services/auth.js:47-50 | `isLoggedIn()` holds exactly when `getAuth()` gives a record with a truthy id. That is exactly when the id a screen reads on mount is truthy. |
| Session.SessionStore.GetRole | src/services/auth.js:52-54 | `getRole()` is a truthy role of the stored record, or null. It is null when nothing is stored. |
| Schedule.BuildSlots | src/pages/Appointment.jsx:6-14 | The loop over hours 9 to 16 yields exactly the slot domain. |
| Schedule.SlotDomainFacts | src/pages/DoctorDashboard.jsx:6-13 | The domain has 15 labels, from "09:00" to "16:00", each on the hour or half hour. The labels are strictly increasing, and "16:30" is not among them. |
| Schedule.LabelShape | src/pages/Appointment.jsx:8-11 | Label i is a well-formed "HH:MM" at hour 9 + i/2, minute 30·(i mod 2). |
| Schedule.ClockValueInjective | src/pages/DoctorDashboard.jsx:330 | Two well-formed "HH:MM" texts have the same clock value exactly when they are equal. |
| Schedule.LexIsClockOrder | src/pages/DoctorDashboard.jsx:330 | On well-formed "HH:MM" texts, the string order of `sort()` is the chronological order. |
| Schedule.Pad2Value | src/pages/Appointment.jsx:32-33 | A padded number below 100 is two digits that read back as the number. |
| Schedule.FormatDate | src/pages/Appointment.jsx:30-35 | `fmtDateLocal` (and `toYMD` at DoctorDashboard.jsx:28-31) gives the year's digits, "-", two digits, "-", two digits. |
| Schedule.FormatDateRoundTrip | src/pages/Appointment.jsx:30-35 | Reading `fmtDateLocal(d)` back gives the year, the month counted from 1, and the day. |
| Schedule.FormatDateInjective | src/pages/DoctorDashboard.jsx:28-31 | Two days have the same `toYMD` text exactly when they are the same day. |
| Booking.FirstText | src/pages/Appointment.jsx:109-111 | `a \|\| b \|\| null` over optional texts gives the first non-empty text. Every earlier one is empty. The result is null exactly when all are empty. |
| Booking.DoctorName | src/pages/Appointment.jsx:104-108 | The name is never empty. It is `name` when non-empty, else `fullName`, else the joined first and last names, else "แพทย์". |
| Booking.NormalizeDoctor | src/pages/Appointment.jsx:101-119 | Keeps the id and takes the name as above. The specialty code is the first non-empty of its two sources, and the Thai name is the first non-empty of its three sources. |
| Booking.FindDoctor | src/pages/Appointment.jsx:77 | `find` returns the first listed doctor whose `String(id)` equals the route parameter. It returns nothing exactly when no doctor matches. |
| Booking.OpenSetConcat | src/pages/Appointment.jsx:138-142 | The open set holds the five-character labels of the rows with `Number(is_open) === 1`. The open set of two row lists joined is the union of their open sets. |
| Booking.RowOpen | src/pages/Appointment.jsx:140 | A row is open exactly when `is_open` is 1, true, or a text that `Number()` reads as 1. |
| Booking.RowLabel | src/pages/Appointment.jsx:141 | The label is the first five characters of `slot_time \|\| ""`, or all of it when shorter. |
| Booking.OpenSet | src/pages/Appointment.jsx:138-142 | Every open row's label is in the set, every member has at most five characters, and no rows give the empty set. |
| Booking.ClosedRowIgnored | src/pages/Appointment.jsx:140 | Inserting a closed row anywhere leaves the open set unchanged. |
| Booking.OpenSetExample | src/pages/Appointment.jsx:136-142 | For the rows the server is expected to send, an open "09:00:00" row and a closed "09:30:00" row, the set is {"09:00"}. |
| Booking.OpenSetNotRestrictedToDomain | src/pages/Appointment.jsx:138-142 | An open "17:00:00" row puts "17:00" in the set, although "17:00" is no slot of the domain. |
| Booking.Confirm | src/pages/Appointment.jsx:172-192 | Asks to log in exactly when the stored id is falsy. Otherwise it asks for a selection exactly when no doctor, no doctor id or no slot is chosen. Otherwise the request carries the patient id, the doctor id, the date text and "HH:MM:00". |
| Booking.RequestCarriesSelection | src/pages/Appointment.jsx:187-192 | The request's time cut to five characters is the chosen label, and its date reads back as the chosen day. |
| Booking.BookingScreen.constructor | src/pages/Appointment.jsx:52-58 | Starts with no doctor, today selected, no slot, an empty open set and nothing loading. |
| Booking.BookingScreen.DoctorLoaded | src/pages/Appointment.jsx:83-84 | The normalised doctor replaces the old one, and nothing else changes. A new doctor cancels loads in flight. |
| Booking.BookingScreen.BeginSlotLoad | src/pages/Appointment.jsx:122-133 | Without a doctor nothing starts. Otherwise loading is set and the load is tagged with the current state. |
| Booking.BookingScreen.SlotsLoaded | src/pages/Appointment.jsx:143-146 | A cancelled load changes nothing. A current load sets the open set from the rows and ends loading. It clears a selected slot that is no longer open. |
| Booking.BookingScreen.SlotsLoadFailed | src/pages/Appointment.jsx:147-152 | A current failure only ends loading. The open set and the selection stay. |
| Booking.BookingScreen.ChooseDay | src/pages/Appointment.jsx:257-260 | Selects the day and clears the slot. |
| Booking.BookingScreen.ClickSlot | src/pages/Appointment.jsx:282-290 | Only an enabled button of the domain changes the selection. A button is enabled when its label is open and no load is running. |
| Booking.BookingScreen.SlotEnabled | src/pages/Appointment.jsx:289 | A slot button is enabled exactly when its label is open and no load is running. |
| Booking.BookingScreen.ConfirmNow | src/pages/Appointment.jsx:172-192 | A request sent from the screen has an eight-character time that ends in ":00" and whose first five characters are a slot of the domain. |
| Availability.Dedup | src/pages/DoctorDashboard.jsx:162-164 | A `Set` built from a list holds each member of the list exactly once. |
| Availability.DedupFirstOrder | src/pages/DoctorDashboard.jsx:162-164 | The `Set`'s members come in the order of their first occurrence in the list. That is the order `[...set]` later sends to the server. |
| Availability.Remove | src/pages/DoctorDashboard.jsx:199 | `delete` keeps every other member, keeps the set duplicate-free, and leaves a set without the label unchanged. |
| Availability.Toggle | src/pages/DoctorDashboard.jsx:195-204 | The toggled label flips membership. Every other label keeps its membership, and the result has no duplicates. |
| Availability.ToggleTwice | src/pages/DoctorDashboard.jsx:195-204 | Toggling twice restores the members. An absent label leaves exactly the original set; a present label moves to the end of the insertion order. |
| Availability.RemoveLast | src/pages/DoctorDashboard.jsx:199-200 | Adding a new label and deleting it gives back the original set. |
| Availability.RowValues | src/pages/DoctorDashboard.jsx:163 | A text is listed exactly when it is non-empty and is some row's `slot_time` prefix, or its `time` when that prefix is empty. |
| Availability.LoadedSet | src/pages/DoctorDashboard.jsx:162-164 | The loaded day is duplicate-free and holds exactly the non-empty row values. |
| Availability.ClosedRowLoaded | src/pages/DoctorDashboard.jsx:162-164 | A row marked closed still loads as an available slot, because the dashboard does not read `is_open`. |
| Availability.SummaryOf | src/pages/DoctorDashboard.jsx:326-335 | Shows the "not set" notice exactly when the day is empty. Otherwise the chips are the day's labels, reordered and sorted. |
| Availability.SummaryChronological | src/pages/DoctorDashboard.jsx:330 | For well-formed labels, the chips run strictly forward in time. |
| Availability.PermutationKeepsNoDup | src/pages/DoctorDashboard.jsx:330 | Sorting a duplicate-free day yields no repeated chip. |
| Availability.MapAppointment | src/pages/DoctorDashboard.jsx:128-139 | The entry keeps the id. Its time is the first five characters of `apt_time \|\| time \|\| ""` (all of it when shorter), taken from `apt_time` whenever that is non-empty. The patient is the trimmed, joined first and last names, or "คนไข้" when that is empty. The status is "booked" exactly when none is given, otherwise the given status. A present note is kept and a missing one becomes "". |
| Availability.MapAppointments | src/pages/DoctorDashboard.jsx:118-142 | The list is mapped one entry per appointment, in order. |
| Availability.Dashboard.constructor | src/pages/DoctorDashboard.jsx:47-49 | Starts with no availability, no appointments and the first day selected. |
| Availability.Dashboard.AppointmentsLoaded | src/pages/DoctorDashboard.jsx:118-142 | The list becomes the mapped appointments, and availability is untouched. |
| Availability.Dashboard.AppointmentsLoadFailed | src/pages/DoctorDashboard.jsx:143-146 | The list becomes empty, and availability is untouched. |
| Availability.Dashboard.DaySlots | src/pages/DoctorDashboard.jsx:58-59 | The selected day's slots have no duplicates, and a day never loaded has none. |
| Availability.Dashboard.SelectDay | src/pages/DoctorDashboard.jsx:292 | Selects the day and keeps all availability. |
| Availability.Dashboard.ToggleSlot | src/pages/DoctorDashboard.jsx:195-204 | The selected day becomes the toggle of its slots, and every other day is unchanged. |
| Availability.Dashboard.ClearDay | src/pages/DoctorDashboard.jsx:206-208 | The selected day becomes empty, and every other day is unchanged. |
| Availability.Dashboard.LoadSucceeded | src/pages/DoctorDashboard.jsx:161-169 | The loaded day becomes the set of its row values, and every other day is unchanged. |
| Availability.Dashboard.LoadFailed | src/pages/DoctorDashboard.jsx:170-176 | The loaded day becomes empty, and every other day is unchanged. |
| Availability.Dashboard.SaveDay | src/pages/DoctorDashboard.jsx:211-218 | Sends nothing exactly when there is no doctor id or no API base. Otherwise it sends the doctor id, the selected date's text and the day's duplicate-free slots. |
| Availability.Dashboard.SummaryNow | src/pages/DoctorDashboard.jsx:326-335 | The selected day shows the notice exactly when it has no slot. Otherwise it shows the day's slots sorted, each once. |
| Appointments.Bucket | src/pages/MyAppointments.jsx:86 | An item belongs to the cancelled tab exactly when its status is "cancelled". |
| Appointments.Shown | src/pages/MyAppointments.jsx:89-94 | A tab lists exactly the items that belong to it, and never more items than there are. |
| Appointments.ShownConcat | src/pages/MyAppointments.jsx:89-94 | Filtering keeps order: the list of two joined lists is the two lists joined. |
| Appointments.CountsPartition | src/pages/MyAppointments.jsx:112-113 | The two tab counts add up to the number of items. |
| Appointments.MarkCancelled | src/pages/MyAppointments.jsx:68 | Every item with the id gets status "cancelled", and every other item is unchanged, position by position. |
| Appointments.RemoveId | src/pages/MyAppointments.jsx:81 | Keeps exactly the items with another id. A one-item list is kept when its id differs and emptied otherwise. |
| Appointments.RemoveIdConcat | src/pages/MyAppointments.jsx:81 | Removing from a concatenation is the concatenation of the removals. With the one-item case, this pins the result: the other items, in order and with their repetitions. |
| Appointments.CancelLeavesUpcoming | src/pages/MyAppointments.jsx:68-71 | After a cancel, the upcoming tab lists what it listed before, minus the cancelled id, in the same order. |
| Appointments.CancelledIdOnCancelledTab | src/pages/MyAppointments.jsx:68-71 | After a cancel, every item with that id is on the cancelled tab. |
| Appointments.MarkCancelledIdempotent | src/pages/MyAppointments.jsx:68 | Cancelling the same id twice is cancelling it once. |
| Appointments.DisplayDate | src/pages/MyAppointments.jsx:26-30 | The shown date is a prefix of `String(raw \|\| "")`. With a "T" it stops just before the first "T". Without one it is the first ten characters, or the whole text when shorter. |
| Appointments.DisplayDateOfTimestamp | src/pages/MyAppointments.jsx:28-29 | An ISO timestamp shows as its date part. |
| Appointments.DisplayDateOfDate | src/pages/MyAppointments.jsx:28-29 | A plain date of at most ten characters shows unchanged. |
| Appointments.DisplayTimeHM | src/pages/MyAppointments.jsx:33 | The shown time is a prefix of the text, five characters long, or the whole text when it is shorter. |
| Appointments.DisplayTimeOfBooking | src/pages/MyAppointments.jsx:33 | The "HH:MM:00" a booking stores shows as the "HH:MM" label that was picked. |
| Appointments.LinkTarget | src/pages/MyAppointments.jsx:182 | The link is "#" exactly when the doctor id is falsy. Otherwise it is "/appointment/" followed by the id. |
| Appointments.CanLink | src/pages/MyAppointments.jsx:154 | `Boolean(a.doctorId)`: a number links when it is not 0, a text when it is not empty, and a missing id never links. |
| Appointments.MyAppointmentsScreen.constructor | src/pages/MyAppointments.jsx:36-41 | Without a patient id it shows the login notice and does not load. With one it starts loading. |
| Appointments.MyAppointmentsScreen.Loaded | src/pages/MyAppointments.jsx:42-55 | Ends loading. An array body becomes the items and a non-array body gives none. A failed status or a thrown error keeps the items and sets the error text. |
| Appointments.MyAppointmentsScreen.SelectTab | src/pages/MyAppointments.jsx:132-138 | Changes the tab only. |
| Appointments.MyAppointmentsScreen.List | src/pages/MyAppointments.jsx:89-94 | The listed items are exactly the items of the current tab. |
| Appointments.MyAppointmentsScreen.Cancel | src/pages/MyAppointments.jsx:59-75 | A declined confirmation changes nothing. A refusal alerts its message, or the fallback, and changes nothing. A success marks the id cancelled, alerts, and switches to the cancelled tab. |
| Appointments.MyAppointmentsScreen.RebookClick | src/pages/MyAppointments.jsx:78-83 | Without a link the click is prevented and nothing changes. Otherwise the items with that id leave the list. |
| Registration.RoleFromQuery | src/pages/Register.jsx:9 | A missing or empty `role` parameter means "patient". Any other text is kept. |
| Registration.Set | src/pages/Register.jsx:62-64 | The edited field takes the typed value, and every other field keeps its value. |
| Registration.Validate | src/pages/Register.jsx:66-79 | No message exactly when the form breaks no rule. Otherwise the message is for the first rule broken, in checking order. |
| Registration.OtherRoleOnlyPasswordRules | src/pages/Register.jsx:66-79 | A role other than patient or doctor passes exactly when the password has at least 6 characters and matches the confirmation. |
| Registration.BuildPayload | src/pages/Register.jsx:91-118 | Names, email and phone are trimmed, and the password is sent as typed. A patient adds the birth date, the gender and the trimmed address. Any other role adds `Number(specialtyId)`. |
| Registration.BlankAddressLineSent | src/pages/Register.jsx:73-107 | A patient form that passes validation with an address line of white space only had a non-empty line, and sends it as "". |
| Registration.BlankAddressLinePasses | src/pages/Register.jsx:66-78 | A complete patient form whose address line is one space passes validation. |
| Registration.ValidPostalCodeSentAsTyped | src/pages/Register.jsx:76-110 | A patient form that passes validation sends its postal code unchanged, as five digits. |
| Registration.DoctorSpecialtySent | src/pages/Register.jsx:116 | A doctor who picked specialty n sends the number n. |
| Registration.RefusalText | src/pages/Register.jsx:128-131 | The server's message when there is one, otherwise the failure text with the status. |
| Registration.RegisterScreen.constructor | src/pages/Register.jsx:8-29 | Starts with the role from the query, an empty form and no message. |
| Registration.RegisterScreen.OnChange | src/pages/Register.jsx:62-64 | Sets the one field. |
| Registration.RegisterScreen.Submit | src/pages/Register.jsx:81-118 | A failing form shows its rule's message and sends nothing. A passing form clears the message and sends the built body. |
| Registration.RegisterScreen.SubmitDone | src/pages/Register.jsx:128-142 | Shows the success notice or the refusal text, and ends submitting. |
| ProfileEditor.FallbackRole | src/pages/Profile.jsx:12 | The role is "doctor" exactly when the stored role is "doctor", and "patient" otherwise. |
| ProfileEditor.NormalizeLoaded | src/pages/Profile.jsx:37-42 | Keeps every field and the address. `birthDate` becomes the first ten characters of `birthDate`, else of `birth_date`, else "". |
| ProfileEditor.BirthDateOfTimestamp | src/pages/Profile.jsx:36-40 | An ISO timestamp birth date becomes its "YYYY-MM-DD" part. |
| ProfileEditor.ServerRoleOf | src/pages/Profile.jsx:43 | The server's role when it is truthy, otherwise the fallback role. It is always truthy. |
| ProfileEditor.Edit | src/pages/Profile.jsx:58-65 | Before loading nothing changes. A flat edit sets one field and keeps the address. A nested edit sets one address part and keeps the fields. |
| ProfileEditor.AddressOrBlank | src/pages/Profile.jsx:84-87 | An address part when it is truthy, otherwise "". |
| ProfileEditor.SaveDecision | src/pages/Profile.jsx:67-103 | Nothing happens without data or a user id. A patient is stopped exactly when a postal code is given and is not five digits. Anyone else is stopped exactly when no specialty is set. A save sends the names and phone, plus the blank-filled address for a patient or `Number(specialtyId)` otherwise. |
| ProfileEditor.SentPostalCodeIsBlankOrFiveDigits | src/pages/Profile.jsx:72-89 | A saved patient's postal code is "" or five digits. |
| ProfileEditor.EditedPostalCodeSent | src/pages/Profile.jsx:58-89 | Typing a five-digit postal code and saving as a patient sends exactly that code with the rest of the profile. |
| ProfileEditor.SetPw | src/pages/Profile.jsx:26 | Sets one password field and keeps the other two. |
| ProfileEditor.PwDecision | src/pages/Profile.jsx:124-150 | Nothing happens without a user id. The request is sent exactly when no rule is broken, and it carries the current and new passwords. Otherwise the alert is the first broken rule. |
| ProfileEditor.SentPasswordIsNew | src/pages/Profile.jsx:128-149 | A sent new password has at least 8 characters, matches its confirmation and differs from the non-empty current one. |
| ProfileEditor.ProfileScreen.constructor | src/pages/Profile.jsx:7-24 | Takes the id and fallback role from storage, with no data, no server role, blank passwords and no toast. |
| ProfileEditor.ProfileScreen.Loaded | src/pages/Profile.jsx:37-43 | Stores the normalised profile and the server role. |
| ProfileEditor.ProfileScreen.OnChange | src/pages/Profile.jsx:58-65 | Applies the edit to the data only. |
| ProfileEditor.ProfileScreen.OnPwChange | src/pages/Profile.jsx:26 | Applies the edit to the passwords only. |
| ProfileEditor.ProfileScreen.Save | src/pages/Profile.jsx:67-103 | Returns the save decision for the current state. |
| ProfileEditor.ProfileScreen.SaveDone | src/pages/Profile.jsx:105-120 | Success shows the saved toast. A refused save alerts the failure text. A fetch that throws alerts its error message, or the failure text when that message is empty. Only the toast changes. |
| ProfileEditor.ProfileScreen.ChangePassword | src/pages/Profile.jsx:124-150 | Returns the password decision for the current state. |
| ProfileEditor.ProfileScreen.PasswordDone | src/pages/Profile.jsx:151-159 | Success shows the toast and blanks the passwords. Failure alerts the server's message or the fallback, and keeps them. |
| Navigation.RequireAuth | src/App.jsx:15-22 | The page renders exactly when someone is logged in. Otherwise it alerts and redirects to "/", keeping the visited location. |
| Navigation.RequireRole | src/App.jsx:24-35 | The page renders exactly when someone is logged in with the role. A logged-out visitor gets the login alert and keeps the location. A wrong role gets its own alert and does not keep it. |
| Navigation.Resolve | src/App.jsx:42-95 | A booking page is matched exactly by "/appointment/" followed by one non-empty segment, which is the doctor id. |
| Navigation.ResolveAppointment | src/App.jsx:58-65 | The path of a doctor's booking page resolves to that doctor's page. |
| Navigation.AppointmentLinkResolves | src/App.jsx:58-65 | The reschedule and rebook links for a positive numeric doctor id open that doctor's booking page. |
| Navigation.VisitPath | src/App.jsx:42-95 | A visit shows the page the path resolves to, or redirects to "/". |
| Navigation.VisitShowsIffAllowed | src/App.jsx:42-95 | A page shows exactly when the visitor may view it: patient pages need a logged-in patient, the dashboard a logged-in doctor, the profile any login. |
| Navigation.LoggedOutTurnedAway | src/App.jsx:15-93 | Logged out, every guarded page alerts and redirects to "/", keeping the location. This includes the booking page. The profile uses the sign-up message and the other pages the login message. |
| Navigation.UnknownPathNotFound | src/App.jsx:42-95 | A path resolves to NotFound exactly when it is none of the seven fixed paths and not "/appointment/" followed by one non-empty segment. Such a path shows NotFound whoever visits. |
| Navigation.UnknownPathExamples | src/App.jsx:58-95 | "/admin", "/appointment/" and "/appointment/7/x" show NotFound. |
| Navigation.HomeDest | src/components/Navbar.jsx:23 | The logo leads to "/" exactly when logged out, to "/doctor" exactly for a logged-in doctor, and to "/search" for every other logged-in visitor. |
| Navigation.NavItems | src/components/Navbar.jsx:50-73 | Logged out, the bar holds exactly login and the two sign-ups. A patient gets search, my appointments, profile and logout. A doctor gets the dashboard, profile and logout. Any other logged-in role gets nothing. Logout and the profile link appear exactly for a logged-in patient or doctor. |
| Navigation.NavLinksLeadToViewablePages | src/components/Navbar.jsx:50-73 | Every link the bar offers opens its page, never a redirect. |
| Navigation.HomeDestViewable | src/components/Navbar.jsx:23 | For a logged-out visitor, a patient or a doctor, the logo opens its page. |
| Navigation.HomeDestTurnsAwayOtherRoles | src/components/Navbar.jsx:23 | A logged-in visitor with another or no role is sent by the logo to "/search" and turned away with the wrong-role alert. |
| Navigation.DoctorLoginHome | src/components/Navbar.jsx:23 | After `setAuth` of a doctor with a truthy id, the logo leads to the dashboard. |
| Navigation.Logout | src/components/Navbar.jsx:17-20 | Clears only the session key and goes to "/". The bar then shows the logged-out links, and the logo points at "/". |

## Left out

- Network requests, rendering, `alert`/`confirm` dialogs, toasts and `setTimeout`. Each request is modelled by its outcome, passed in as a parameter. Alerts are returned values.
- Locale-formatted dates (`toLocaleDateString`) and the day strips (`buildNextDays`, `nextDays`). The dashboard shows the locale date as text, so its appointment entries keep no date.
- DoctorSearch, Login, Home, NotFound and ProtectedRoute are not part of this model. Navbar's unused `RoleLanding` is not modelled either.
- Avatars and `encodeURIComponent`, which only build image URLs.
- JSON text. A stored entry is modelled as its parsed outcome. Storage exceptions caught by `try` are not modelled.
- Floating-point numbers. Numbers are integers. `Number()` of a text gives an integer for an optionally signed run of decimal digits, and 0 for blank text. Every other text (fractions, exponents, hexadecimal, words) is kept unevaluated. As a consequence, Booking.RowOpen treats an `is_open` of "1.0" or "1e0" as closed, while `Number()` reads both as 1 and the booking screen opens them.
- Booking.RowOpen: a fractional or exponent text such as "1.0" or "1e0" counts as closed, because `Number()` of such text is not evaluated.
- UTF-16 length. Password lengths count characters, not UTF-16 code units.
- Text.Sort: orders texts by Unicode code point, while `sort()` compares UTF-16 code units. The two orders differ only for characters above U+FFFF, which slot labels never contain.
- Router details: case-insensitive matching and trailing slashes.
- Loading the specialty lists (Register.jsx, Profile.jsx) and the dashboard's doctor profile card (DoctorDashboard.jsx:62-106).
- Booking.BookingScreen: the doctor-load failure and the `msg` texts of Appointment.jsx are not modelled.
- The navigation after a successful booking or registration.
- ProfileEditor.Edit: requires its flat key not to be "address". The form has no such input.
- Registration.RegisterScreen.SubmitDone: a request that throws before a response is not distinguished from a refusal without a message.
- Availability.Dashboard.SaveDay: the PUT itself and its result are not modelled; nothing is shown either way.
