# MediMeet client core in Dafny

MediMeet is a telemedicine app. Patients find verified doctors, book
video consultations, in slots the server offers, paid for with credits, and join the call from
their appointment list. Doctors apply through an onboarding form. This
project models the client side of the React Native app: the decisions the
screens and the shared store make before or after talking to the server.

- **Store** (`store.dfy`) is the application store: user, authentication
  flag, loading flag, appointment and doctor lists, and the active tab.
  It is a class whose actions each replace only the fields they name.
  - The list actions are pure functions that the methods assign: append,
    update-by-id with a partial merge, and remove-by-id.
  - The lemmas cover the merge laws, what update and remove touch, and
    that removal is a filter. Removing after an update, and removing what
    was just added, are also proved.
- **AppointmentsScreen** covers the video-call join window, the per-card
  actions, the status colours and icons, and the navigation after a
  video-token response.
- **RegisterScreen** and **OnboardingScreen** cover the two sign-up forms:
  - the per-field checks, with the e-mail and URL regular expressions
    modelled exactly;
  - the error dictionary that validation builds;
  - the submit gate and the request it sends;
  - the field update that resets a shown error.

  Each check is also restated without trim or the scan, and the error
  dictionary is proved empty exactly when the form is valid.
- **DoctorsListScreen** covers which list is fetched for the route's
  specialty, the two-stage filter (specialty chip, then case-insensitive
  search text) and the empty-state message. The filter is a method proved
  equal to a single filter by a `Listed` predicate.
- **PatientHomeScreen** covers the "upcoming" excerpt (the first three
  scheduled appointments), its loader, which keeps the previous excerpt
  when the response has no appointment list, and the header fallbacks.
- **DoctorProfileScreen** covers:
  - the slot count, a left fold over days;
  - the booking-section flag: the guarded handler `handleBookAppointment`
    and the header toggle. The screen never calls the guarded handler, so
    its "No Available Slots" alert cannot appear. The only booking button
    flips the flag without looking at the slot count.
  - what the booking section lists;
  - the hand-off of a chosen slot.
- **BookAppointmentScreen** covers the credit guard, the request payload,
  the `loading` flag around the request and the alert that follows it. The
  alert ignores the request's result (see Findings).
- **Types**, **Seqs** and **Text** are shared:
  - Types holds the records of `src/types/index.ts`.
  - Seqs holds `Array.prototype.filter` and `slice`, with filter laws and a
    subsequence relation.
  - Text holds ECMAScript white space, `trim()`, an ASCII `toLowerCase()`
    and `includes()`.

Times are integers (milliseconds since the epoch). The current time, the
server's responses and the outcome of each request are parameters.

The client calls the server's endpoints for booking, listing, cancelling
and completing appointments, and for the available slots
(`src/config/api.ts:31-39`). It does no slot derivation, double-booking
check, credit debit or time guard of its own, and what those endpoints do
is not part of this model. Two facts about the client:

- The client lets a booking through when no user is loaded, because
  `undefined < 2` is false.
- The join window is the closed interval [start - 30 min, end] when
  start <= end. When the end comes before the start, only the half-open
  [start - 30 min, start) remains (`ActiveWindow` and
  `ActiveWindowInverted`).

## Model

| member | source | states |
|---|---|---|
| Types.StatusName | src/types/index.ts:33 | every status has one of the three wire names of the union |
| Types.StatusNamesDistinct | src/types/index.ts:33 | distinct statuses have distinct wire names |
| Store.Merge | src/store/useAppStore.ts:56 | `{ ...apt, ...updates }`: each field present in the update wins, each absent one keeps the appointment's value (laws in `MergeLaws`) |
| Store.UpdateById | src/store/useAppStore.ts:54-58 | the updated list has the length of the original |
| Store.RemoveById | src/store/useAppStore.ts:60-62 | `filter(apt => apt.id !== id)` over the generic filter (effect in `RemoveByIdEffect`, `RemoveByIdIsFilter`) |
| Store.MergeLaws | src/store/useAppStore.ts:54-58 | merging the empty update is the identity; merging an update twice is merging it once; merging u then v is merging their combination |
| Store.UpdateByIdEffect | src/store/useAppStore.ts:54-58 | entries carrying the id are merged with the update, all others are kept as they were, position by position |
| Store.UpdateAbsentId | src/store/useAppStore.ts:54-58 | updating an id no entry carries leaves the list unchanged |
| Store.UpdateKeepsIds | src/store/useAppStore.ts:54-58 | an update that does not rename keeps every entry's id in place |
| Store.RemoveByIdEffect | src/store/useAppStore.ts:60-62 | after removal no entry carries the id, and every entry not carrying it is still present |
| Store.RemoveByIdIsFilter | src/store/useAppStore.ts:60-62 | removal yields an order-preserving sub-list; each entry's multiplicity is kept, or 0 for the removed id |
| Store.RemoveByIdIdempotent | src/store/useAppStore.ts:60-62 | removing twice is removing once; removing an absent id changes nothing |
| Store.RemoveAfterUpdate | src/store/useAppStore.ts:54-62 | removing an id after updating it (without renaming) equals removing it from the original list |
| Store.RemoveUndoesAdd | src/store/useAppStore.ts:50-62 | appending an appointment with a fresh id and then removing that id restores the list |
| Store.AppStore.constructor | src/store/useAppStore.ts:33-39 | the initial state: no user, not authenticated, not loading, empty lists, tab "Home" |
| Store.AppStore.SetUser | src/store/useAppStore.ts:42 | sets the user and nothing else |
| Store.AppStore.SetAuthenticated | src/store/useAppStore.ts:44 | sets the flag and nothing else |
| Store.AppStore.SetLoading | src/store/useAppStore.ts:46 | sets the flag and nothing else |
| Store.AppStore.SetAppointments | src/store/useAppStore.ts:48 | replaces the appointment list and nothing else |
| Store.AppStore.AddAppointment | src/store/useAppStore.ts:50-52 | the new list is the old one with the appointment appended |
| Store.AppStore.UpdateAppointment | src/store/useAppStore.ts:54-58 | the new list is the update-by-id of the old one; unchanged when the id is absent |
| Store.AppStore.RemoveAppointment | src/store/useAppStore.ts:60-62 | the new list is the old one filtered by id; the id is gone |
| Store.AppStore.SetDoctors | src/store/useAppStore.ts:64 | replaces the doctor list and nothing else |
| Store.AppStore.SetActiveTab | src/store/useAppStore.ts:66 | sets the tab and nothing else |
| Store.AppStore.Logout | src/store/useAppStore.ts:68-74 | back to the initial state except that the loading flag is untouched |
| Text.TrimEmptyIffBlank | src/screens/auth/RegisterScreen.tsx:41-51 | `s.trim()` is empty exactly when every character of s is ECMAScript white space |
| Text.TrimIsSlice | src/screens/auth/RegisterScreen.tsx:41-51 | `trim()` yields a slice of s whose outside is white space and whose end characters are not |
| Text.Trim | src/screens/auth/RegisterScreen.tsx:41-51 | `trim()`: leading then trailing ECMAScript white space removed (meaning in `TrimEmptyIffBlank`, `TrimIsSlice`) |
| Text.Contains | src/screens/patient/DoctorsListScreen.tsx:80-81 | `includes()`: the needle occurs at some offset of the haystack |
| Text.ToLowerIdempotent | src/screens/patient/DoctorsListScreen.tsx:80-81 | lowering twice is lowering once |
| Text.AsciiLower | src/screens/patient/DoctorsListScreen.tsx:80-81 | upper-case ASCII letters map to lower case, every other character is kept |
| Text.ToLower | src/screens/patient/DoctorsListScreen.tsx:80-81 | same length, lowered character by character |
| AppointmentsScreen.IsAppointmentActive | src/screens/patient/AppointmentsScreen.tsx:131-142 | `isAppointmentActive` with the current time as a parameter (meaning in `ActiveWindow`, `ActiveWindowInverted`) |
| AppointmentsScreen.CanJoinCall | src/screens/patient/AppointmentsScreen.tsx:173 | scheduled and inside the join window |
| AppointmentsScreen.StatusColor | src/screens/patient/AppointmentsScreen.tsx:60-71 | `getStatusColor` on any string, with the grey fallback |
| AppointmentsScreen.StatusIcon | src/screens/patient/AppointmentsScreen.tsx:73-84 | `getStatusIcon` on any string, with the calendar fallback |
| AppointmentsScreen.ActiveWindow | src/screens/patient/AppointmentsScreen.tsx:131-142 | for start <= end, joinable exactly from 30 minutes before the start to the end, both ends included |
| AppointmentsScreen.ActiveWindowInverted | src/screens/patient/AppointmentsScreen.tsx:131-142 | with the end before the start, only the 30 minutes before the start qualify |
| AppointmentsScreen.TerminalNeverJoinable | src/screens/patient/AppointmentsScreen.tsx:173 | completed and cancelled appointments can never be joined |
| AppointmentsScreen.CardActions | src/screens/patient/AppointmentsScreen.tsx:230-252 | buttons appear exactly for scheduled appointments; "Join" exactly when joinable, else the 30-minute note |
| AppointmentsScreen.StatusBadgesDistinct | src/screens/patient/AppointmentsScreen.tsx:60-84 | the three statuses get pairwise distinct colours and icons, none of them the fallback, which any other string gets |
| AppointmentsScreen.JoinNavigation | src/screens/patient/AppointmentsScreen.tsx:119-125 | navigates exactly on a successful response, passing session id, token and appointment id unchanged |
| RegisterScreen.WithSetsOnlyField | src/screens/auth/RegisterScreen.tsx:90-91 | setting a field sets it and leaves the other fields as they were |
| RegisterScreen.MatchesEmailPattern | src/screens/auth/RegisterScreen.tsx:47 | the regular-expression test as a scan for an '@' (meaning in `EmailPatternCorrect`) |
| RegisterScreen.NameError | src/screens/auth/RegisterScreen.tsx:41-43 | "Name is required" for a name that trims to "" (meaning in `FieldErrorsMeaning`) |
| RegisterScreen.EmailError | src/screens/auth/RegisterScreen.tsx:45-49 | "Email is required" for a blank e-mail, else "Please enter a valid email" when the pattern fails |
| RegisterScreen.PasswordError | src/screens/auth/RegisterScreen.tsx:51-55 | "Password is required" for a blank password, else the 6-character message for a shorter one |
| RegisterScreen.ConfirmError | src/screens/auth/RegisterScreen.tsx:57-59 | "Passwords do not match" when the two differ |
| RegisterScreen.ScanDomainFinds | src/screens/auth/RegisterScreen.tsx:47 | the scan after the '@' succeeds exactly when a '.' with a non-space character on each side follows a non-space run |
| RegisterScreen.EmailPatternCorrect | src/screens/auth/RegisterScreen.tsx:47 | the executable test accepts exactly the strings containing a match of `\S+@\S+\.\S+` |
| RegisterScreen.FieldErrorsMeaning | src/screens/auth/RegisterScreen.tsx:41-59 | each field's message, restated with blankness, the e-mail shape and the untrimmed password length; mismatch exactly when password and confirmation differ |
| RegisterScreen.ChecksPassIffValid | src/screens/auth/RegisterScreen.tsx:38-63 | all four checks pass exactly when the form is valid |
| RegisterScreen.NoErrorsIffValid | src/screens/auth/RegisterScreen.tsx:61-62 | an error dictionary that agrees with the checks is empty exactly when the form is valid |
| RegisterScreen.CollectErrors | src/screens/auth/RegisterScreen.tsx:38-60 | the built dictionary holds an entry, with its message, exactly for each failing field, and is empty exactly for a valid form |
| RegisterScreen.RegisterScreenState.constructor | src/screens/auth/RegisterScreen.tsx:27-34 | empty form, no errors, not loading |
| RegisterScreen.RegisterScreenState.ValidateForm | src/screens/auth/RegisterScreen.tsx:38-63 | the shown errors become the checks' dictionary; returns true exactly when it is empty, and exactly for a valid form |
| RegisterScreen.RegisterScreenState.HandleRegister | src/screens/auth/RegisterScreen.tsx:65-87 | a request is sent exactly for a valid form, carrying name, e-mail and password unchanged; `loading` untouched when nothing is sent, false after the request |
| RegisterScreen.RegisterScreenState.UpdateFormData | src/screens/auth/RegisterScreen.tsx:90-96 | the field is set; a non-empty error under it is reset to "", other errors stay |
| OnboardingScreen.WithSetsOnlyField | src/screens/auth/OnboardingScreen.tsx:115-116 | setting a field sets it and leaves the other fields as they were |
| OnboardingScreen.MatchesUrlPattern | src/screens/auth/OnboardingScreen.tsx:72 | the URL test as one check of the character after the prefix (meaning in `UrlPatternCorrect`) |
| OnboardingScreen.UrlPatternCorrect | src/screens/auth/OnboardingScreen.tsx:72 | the one-character test holds exactly when the string starts with "http://" or "https://" followed by a non-empty run of characters that are not line terminators, the meaning of `.+` |
| OnboardingScreen.SpecialtyError | src/screens/auth/OnboardingScreen.tsx:60-62 | "Specialty is required" for an empty specialty |
| OnboardingScreen.ExperienceError | src/screens/auth/OnboardingScreen.tsx:64-68 | "Experience is required" for "", else the invalid-number message when `Number` gives NaN, a value below 1 or -Infinity |
| OnboardingScreen.CredentialError | src/screens/auth/OnboardingScreen.tsx:70-74 | "Credential URL is required" for "", else "Please enter a valid URL" when the pattern fails |
| OnboardingScreen.DescriptionError | src/screens/auth/OnboardingScreen.tsx:76-78 | the 20-character message for an empty or shorter description |
| OnboardingScreen.InfiniteExperience | src/screens/auth/OnboardingScreen.tsx:66 | an experience read as an infinity passes exactly when it is +Infinity |
| OnboardingScreen.DescriptionCheckIsLength | src/screens/auth/OnboardingScreen.tsx:76-78 | the description fails exactly when it has fewer than 20 characters |
| OnboardingScreen.ChecksPassIffValid | src/screens/auth/OnboardingScreen.tsx:57-79 | all four checks pass exactly when the application is valid |
| OnboardingScreen.NoErrorsIffValid | src/screens/auth/OnboardingScreen.tsx:80-81 | an error dictionary that agrees with the checks is empty exactly when the application is valid |
| OnboardingScreen.CollectErrors | src/screens/auth/OnboardingScreen.tsx:57-80 | the built dictionary holds an entry, with its message, exactly for each failing field, and is empty exactly for a valid application |
| OnboardingScreen.DecimalPositiveIffNonzeroDigit | src/screens/auth/OnboardingScreen.tsx:66 | a digit string's value is at least 1 exactly when some digit is not '0' |
| OnboardingScreen.ExperienceOfWholeNumber | src/screens/auth/OnboardingScreen.tsx:64-68 | an experience read as a whole number passes exactly when the number is at least 1 |
| OnboardingScreen.ExperienceDigits | src/screens/auth/OnboardingScreen.tsx:64-68 | a digit string read by `Number` as its decimal value is accepted exactly when some digit is not '0' |
| OnboardingScreen.OnboardingScreenState.constructor | src/screens/auth/OnboardingScreen.tsx:29-35 | empty application, no errors, not loading |
| OnboardingScreen.OnboardingScreenState.ValidateDoctorForm | src/screens/auth/OnboardingScreen.tsx:57-82 | the shown errors become the checks' dictionary; returns true exactly when it is empty, and exactly for a valid application |
| OnboardingScreen.OnboardingScreenState.HandleDoctorSubmit | src/screens/auth/OnboardingScreen.tsx:84-111 | a request is sent exactly for a valid application: role DOCTOR, the converted experience, the other fields unchanged; `loading` untouched when nothing is sent, false after the request |
| OnboardingScreen.OnboardingScreenState.UpdateDoctorData | src/screens/auth/OnboardingScreen.tsx:115-120 | the field is set; a non-empty error under it is reset to "", other errors stay |
| DoctorsListScreen.FilterDoctors | src/screens/patient/DoctorsListScreen.tsx:67-86 | the two stages keep exactly the listed doctors (chip "All" or matching; search empty or found case-insensitively in name or specialty), in order, as a sub-list of the fetched list |
| DoctorsListScreen.SearchIgnoresQueryCase | src/screens/patient/DoctorsListScreen.tsx:78-83 | a query and its lowered form list the same doctors |
| DoctorsListScreen.NoFilterShowsAll | src/screens/patient/DoctorsListScreen.tsx:67-86 | with chip "All" and no search text every fetched doctor is shown |
| DoctorsListScreen.ChipOnlyNarrows | src/screens/patient/DoctorsListScreen.tsx:67-86 | a chip never shows more doctors than "All" with the same search text |
| DoctorsListScreen.EmptyStateMessage | src/screens/patient/DoctorsListScreen.tsx:203-205 | the filter hint exactly when a search text or chip is active, else the "none available" message |
| DoctorsListScreen.EmptyStateHonest | src/screens/patient/DoctorsListScreen.tsx:198-206 | "none available" with an empty list implies nothing was fetched |
| DoctorsListScreen.FetchFor | src/screens/patient/DoctorsListScreen.tsx:53-57 | the per-specialty list is fetched exactly for a present, non-empty route specialty other than "All" |
| DoctorsListScreen.SelectedAfterRoute | src/screens/patient/DoctorsListScreen.tsx:37-44 | a non-empty route specialty becomes the selected chip, otherwise the chip is kept |
| DoctorsListScreen.RouteFetchAndChipAgree | src/screens/patient/DoctorsListScreen.tsx:37-57 | when the route makes the screen fetch one specialty, the selected chip is that specialty |
| DoctorsListScreen.DoctorsOrEmpty | src/screens/patient/DoctorsListScreen.tsx:58 | a missing doctor list is taken as empty |
| PatientHomeScreen.Upcoming | src/screens/patient/PatientHomeScreen.tsx:36-38 | the scheduled appointments, cut to the first three (meaning in `UpcomingShape`, `UpcomingPosition`) |
| PatientHomeScreen.UpcomingShape | src/screens/patient/PatientHomeScreen.tsx:36-38 | the excerpt has min(3, number scheduled) entries, all scheduled and from the list, in list order |
| PatientHomeScreen.UpcomingPosition | src/screens/patient/PatientHomeScreen.tsx:36-38 | a scheduled appointment preceded by k < 3 scheduled ones is the excerpt's entry k |
| PatientHomeScreen.FewScheduledAllShown | src/screens/patient/PatientHomeScreen.tsx:36-38 | with fewer than three scheduled appointments, all of them are shown |
| PatientHomeScreen.PatientHomeState.constructor | src/screens/patient/PatientHomeScreen.tsx:28-30 | no excerpt, loading, not refreshing |
| PatientHomeScreen.PatientHomeState.LoadUpcoming | src/screens/patient/PatientHomeScreen.tsx:32-46 | with an appointment list the excerpt becomes its first three scheduled entries; without one (the TypeError caught at :40-41) the excerpt is kept; the excerpt stays at most three scheduled entries; both flags cleared |
| PatientHomeScreen.DisplayName | src/screens/patient/PatientHomeScreen.tsx:92 | the user's name, or "Patient" for a missing user or empty name |
| PatientHomeScreen.DisplayCredits | src/screens/patient/PatientHomeScreen.tsx:96 | the user's credits, or 0 for a missing user |
| DoctorProfileScreen.TotalSlots | src/screens/patient/DoctorProfileScreen.tsx:48 | the `reduce` over days adding each day's slot count, from 0 (laws in `TotalSlotsConcat`, `TotalSlotsZeroIff`) |
| DoctorProfileScreen.SectionFor | src/screens/patient/DoctorProfileScreen.tsx:142-187 | the booking section for the flag and the days (meaning in `SectionListsEverySlot`) |
| DoctorProfileScreen.TotalSlotsConcat | src/screens/patient/DoctorProfileScreen.tsx:48 | the slot count is additive over a split of the day list |
| DoctorProfileScreen.TotalSlotsZeroIff | src/screens/patient/DoctorProfileScreen.tsx:48 | the count is 0 exactly when every day has no slot (and for no days) |
| DoctorProfileScreen.TotalSlotsAtLeastDay | src/screens/patient/DoctorProfileScreen.tsx:48 | the count is at least any single day's slot count |
| DoctorProfileScreen.DaysOrEmpty | src/screens/patient/DoctorProfileScreen.tsx:38 | a missing day list is taken as empty and counts 0 slots |
| DoctorProfileScreen.SectionListsEverySlot | src/screens/patient/DoctorProfileScreen.tsx:142-187 | the section is hidden exactly when the flag is off; the notice exactly when no day has a slot; otherwise every day in order, its slots as buttons or the empty-day note, and at least one day with buttons |
| DoctorProfileScreen.BookButtonTitle | src/screens/patient/DoctorProfileScreen.tsx:110-111 | "Hide Booking" exactly while the section is shown |
| DoctorProfileScreen.DoctorProfileState.constructor | src/screens/patient/DoctorProfileScreen.tsx:19-24 | no doctor, no days, loading, section hidden, no slot selected |
| DoctorProfileScreen.DoctorProfileState.ApplyLoaded | src/screens/patient/DoctorProfileScreen.tsx:37-44 | stores the doctor and the day list (empty when missing) and stops loading |
| DoctorProfileScreen.DoctorProfileState.HandleBookAppointment | src/screens/patient/DoctorProfileScreen.tsx:50-59 | alerts and leaves the flag unchanged exactly when no slot exists; otherwise opens the section (the screen never calls it) |
| DoctorProfileScreen.DoctorProfileState.ToggleBooking | src/screens/patient/DoctorProfileScreen.tsx:110-113 | flips the flag regardless of the slot count, and the label with it |
| DoctorProfileScreen.DoctorProfileState.HandleSlotSelect | src/screens/patient/DoctorProfileScreen.tsx:61-68 | remembers the slot and routes with doctor id, doctor and slot unchanged |
| BookAppointmentScreen.InsufficientCredits | src/screens/patient/BookAppointmentScreen.tsx:44 | the early return's test `user?.credits < 2`, false for an absent user |
| BookAppointmentScreen.WarningShown | src/screens/patient/BookAppointmentScreen.tsx:162 | the warning card's test, written separately in the screen |
| BookAppointmentScreen.ConfirmDisabled | src/screens/patient/BookAppointmentScreen.tsx:187 | the disabled button's test, written separately in the screen |
| BookAppointmentScreen.GuardsAgree | src/screens/patient/BookAppointmentScreen.tsx:44-187 | the early return, the warning card and the disabled button are the same test; a present user passes exactly with at least the displayed cost of 2; an absent user always passes |
| BookAppointmentScreen.Payload | src/screens/patient/BookAppointmentScreen.tsx:58-62 | the request carries the doctor id, the slot's start and end and the description unchanged |
| BookAppointmentScreen.FailureMessage | src/screens/patient/BookAppointmentScreen.tsx:77 | the error's message, or the fallback when it is empty; never empty |
| BookAppointmentScreen.AlertAsWritten | src/screens/patient/BookAppointmentScreen.tsx:64-77 | "Appointment Booked!" for every request that does not throw, whatever it resolved to |
| BookAppointmentScreen.RejectedBookingReportedAsBooked | src/screens/patient/BookAppointmentScreen.tsx:64-75 | a result with `success: false` is still reported as booked |
| BookAppointmentScreen.CheckedAlert | src/screens/patient/BookAppointmentScreen.tsx:64-77 | corrected: booked exactly for a successful result that did not throw, otherwise the failure alert with the result's or the thrown message |
| BookAppointmentScreen.CheckedAlertFixesRejection | src/screens/patient/BookAppointmentScreen.tsx:64-77 | the corrected alert differs from the written one exactly on a rejected booking that did not throw |
| BookAppointmentScreen.BookAppointmentState.constructor | src/screens/patient/BookAppointmentScreen.tsx:17-21 | empty description, not loading, nothing sent |
| BookAppointmentScreen.BookAppointmentState.SetDescription | src/screens/patient/BookAppointmentScreen.tsx:150 | sets the description and nothing else |
| BookAppointmentScreen.BookAppointmentState.HandleBookAppointment | src/screens/patient/BookAppointmentScreen.tsx:43-81 | short of credits: alert, nothing sent, loading unchanged; otherwise exactly one request with the payload, the alert as written (ignoring the result), and loading false afterwards |
| BookAppointmentScreen.BookAppointmentState.HandleBookAppointmentChecked | src/screens/patient/BookAppointmentScreen.tsx:43-81 | corrected: as above, but "Appointment Booked!" exactly when the result succeeded and nothing was thrown |

## Findings

| source | as written | input that shows it | evidently intended | confidence | as-written member | corrected member |
|---|---|---|---|---|---|---|
| src/screens/patient/BookAppointmentScreen.tsx:64-77 | the awaited booking result is discarded and "Appointment Booked!" is shown next; the catch only sees exceptions, but `apiCall` (src/services/api.ts:49-73) turns every request error into `success: false` and never throws | a booking the server rejects, which resolves to `{ success: false, error: "..." }` | report "Booking Failed" with the result's error, as the catch block intends and as the register and onboarding screens do by checking `success` | not executed; read from the code | BookAppointmentScreen.RejectedBookingReportedAsBooked | BookAppointmentScreen.CheckedAlert |

## Left out

- Everything behind the endpoints in `src/config/api.ts` and the
  wrappers in `src/services/*` is out of scope: the available slots, the
  booking, cancelling and completing of appointments, credits and video
  tokens.
- HTTP, authentication tokens, AsyncStorage and the service wrappers are
  left out. Responses and request outcomes are parameters.
- VideoCallScreen, navigation stacks and rendering beyond the decisions
  listed above are left out, as are locale date and time formatting
  (`toLocaleDateString`, `toLocaleTimeString`).
- Date parsing: ISO timestamps are taken as already-parsed milliseconds. An
  unparsable timestamp (NaN in `new Date`) is not modelled.
- OnboardingScreen.JsNumber: a `Number` result is NaN, a finite value or
  an infinity. Negative zero and the precision of floating point are not
  modelled. An overflowing experience such as "1e999" reads as +Infinity,
  passes the check and is handed to `setUserRole` as +Infinity, which JSON
  encodes as `null` (`InfiniteExperience`).
- Types.User: `credits` is a JavaScript `number` and is modelled as an
  `int`. Fractional credits are not modelled. The client only compares
  credits with 2 or shows them.
- Text.ToLower: only ASCII letters are lowered, unlike JavaScript's full
  Unicode `toLowerCase`.
- OnboardingScreen.ExperienceError: JavaScript's `Number(...)` is a
  parameter. Its grammar (signs, fractions, exponents, hexadecimal, white
  space) is stated only for plain digit strings (`ExperienceDigits`).
- RegisterScreen.PasswordError and OnboardingScreen.DescriptionError
  count Unicode scalar values. JavaScript's `length` counts UTF-16 code
  units, so they differ for characters outside the Basic Multilingual
  Plane.
- Store.Merge: a `Partial<Appointment>` that sets a field explicitly to
  `undefined` is not distinguished from one that omits it. The nested
  `patient` and `doctor` records of an appointment are not modelled.
- Concurrency and interleaving of asynchronous requests are left out.
  While a request is in flight the state is not observable in the model.
  BookAppointmentState.HandleBookAppointment, RegisterScreenState.HandleRegister
  and OnboardingScreenState.HandleDoctorSubmit state only the final
  `loading` value, not the intermediate `true`.
- The register and onboarding screens' handling of the response after a
  request (storing the user, alerts) is left out, because it calls into
  the store and the alert API.
- OnboardingScreen's patient path (`handlePatientSelection`) and its step
  switch are left out. They are a single role request with no client-side
  decision.
- AppointmentsScreen's cancellation (`cancelAppointment`) and list
  reload are left out. They are a request and a refresh with no
  client-side decision.
- The pull-to-refresh handlers (`onRefresh`) and the `refreshing` and
  `loading` flags of the doctor and appointment list screens are left out.
  PatientHomeState.LoadUpcoming does clear both of its flags.
- PatientHomeScreen.Upcoming takes a list that is present. A response
  without `appointments` makes `.filter` throw. That path, where the
  excerpt keeps its previous value, is stated by
  PatientHomeState.LoadUpcoming.
- The services return the `apiCall` envelope (`success`, `data`, `error`),
  while the list screens read `appointments`, `doctors` and `days` from the
  response itself, and AppointmentsScreen's join reads `videoSessionId` and
  `token` from it (`JoinNavigation` takes them as `Option` fields). The model takes that field as a parameter
  (`Option` when it may be missing) and does not model the envelope.
