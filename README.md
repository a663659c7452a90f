# Health Link: the portal's data and session layer in Dafny

Health Link is a single-page patient/doctor portal. A visitor picks a portal
(patient or doctor) and signs in with an email and a PIN of six characters (the length is all that is checked). On first
login they complete an onboarding form. After that they move between the
screens of a sidebar layout. Patients book appointments with the doctors of a
fixed directory of areas and hospitals, or with doctors who registered
themselves. Doctors see the bookings made with them. All data lives in the
browser's `localStorage`:

- one profile record per role and normalised email (`healthlink_data_{role}_{email}`);
- a global registry of doctors (`healthlink_global_doctors`), upserted by email;
- a global ledger of bookings (`healthlink_global_appointments`), append-only.

This project models that layer and proves its properties:

- the store and its key scheme;
- the read and save helpers;
- email normalisation (`toLowerCase().trim()`);
- the age computation;
- the login checks;
- the booking dialog's doctor list and its form;
- the app component's handlers, as methods of a class over the session state;
- the static directory `MEDICAL_DATA`.

Modules, one per file:

| file | module | what it holds |
|---|---|---|
| records.dfy | Records | the record types (`PatientDetails`, `DoctorDetails`, `BookedAppointment`), roles, profiles and the `Option`/`Result` wrappers |
| text.dfy | Text | ASCII lower-casing, ECMAScript `trim`, email normalisation, UTF-16 length, decimal printing |
| catalog.dfy | Catalog | `MEDICAL_DATA` as a constant, its lookups and its structural facts |
| store.dfy | Store | keys, stored values, the read helpers, the registry upsert, and `LocalStore` (the mutable store) |
| ledger.dfy | Ledger | who sees which booking |
| age.dfy | Age | `calculateAge` |
| booking.dfy | Booking | the booking dialog: candidate doctors, selection by name, the form (`BookingForm`) |
| session.dfy | Session | screens, the login checks, the profile save, and `Portal` (the app component's state and handlers) |

Conventions:

- **Store values.** The store maps a `Key` to a decoded `Stored` value.
  - `EmptyText` is the empty string. The source's truthiness tests treat it like a missing key.
  - `Unparsable` is any stored text that does not decode to the expected shape. For text `JSON.parse` rejects, reading it throws, which the model expresses as `Err(DecodeError)`. Valid JSON of the wrong shape is also `Unparsable` in the model, although the source does not always throw on it (see "## Left out").
- **Throwing handlers.** An event handler that throws (a click, a form submit) keeps the state updates it made before the throw, and the page stays up. In the model these are methods returning `ok == false`. A throw during rendering or in an effect is different: it unmounts the app (see "## Left out").
- **React state.** The component's state is the fields of `Portal`. The booking dialog's state is the fields of `BookingForm`.

## Model

| member | source | states |
|---|---|---|
| Text.ToLower | App.tsx:594 | same length; each character is lowered (ASCII letters only), everything else is kept |
| Text.ToLowerLowers | App.tsx:594 | a lowered string has no upper-case letter |
| Text.TrimStart | App.tsx:594 | never longer than its argument; the result does not start with whitespace |
| Text.TrimEnd | App.tsx:594 | never longer than its argument; the result does not end with whitespace |
| Text.TrimStartIsSuffix | App.tsx:594 | what `trimStart` keeps is a suffix of the argument |
| Text.TrimEndIsPrefix | App.tsx:594 | what `trimEnd` keeps is a prefix of the argument |
| Text.TrimStartDropsWhitespace | App.tsx:594 | everything dropped at the front is whitespace |
| Text.TrimEndDropsWhitespace | App.tsx:594 | everything dropped at the back is whitespace |
| Text.Trim | App.tsx:594 | `trim` is never longer than its argument (its shape is in the lemmas below) |
| Text.TrimIsTrimmed | App.tsx:594 | `trim` leaves no whitespace at either end |
| Text.TrimIsSlice | App.tsx:594 | `trim(s)` is a slice `s[i..j]` with only whitespace outside it |
| Text.TrimKeepsTrimmed | App.tsx:594 | a string with no whitespace at either end is its own `trim` |
| Text.TrimIgnoresPadding | App.tsx:594 | whitespace around a string does not change its `trim` |
| Text.Normalize | App.tsx:594 | `toLowerCase().trim()` is never longer than the email (its shape is in `NormalizeShape`) |
| Text.NormalizeShape | App.tsx:594 | a normalised email has no upper-case letter and no whitespace at either end |
| Text.NormalizeIdempotent | App.tsx:607 | normalising the session email again (onboarding, settings) gives it back unchanged |
| Text.NormalFormIsFixed | App.tsx:607 | a string with no upper-case letter and no whitespace at either end is its own normal form |
| Text.NormalizeIgnoresCaseAndPadding | App.tsx:594 | emails differing only in letter case and surrounding whitespace normalise alike |
| Text.Utf16Length | App.tsx:280 | `s.length` counts UTF-16 units: between `\|s\|` and `2\|s\|`, and exactly `\|s\|` inside the Basic Multilingual Plane |
| Text.Decimal | App.tsx:50 | `toString` of a non-negative number: non-empty, all digits, no leading zero unless the whole text is "0" for 0 |
| Text.DecimalRoundTrip | App.tsx:50 | reading the printed digits back gives the number |
| Catalog.AllHospitalNames | App.tsx:316 | the flattened list of hospital names, area by area (its members are stated in `AllHospitalNamesMembers`) |
| Catalog.AllHospitalNamesMembers | App.tsx:316 | the onboarding list of hospitals holds exactly the names of the directory's hospitals |
| Catalog.FindArea | App.tsx:529 | finds an area exactly when the name is an area name; the one found has that name |
| Catalog.FindHospital | App.tsx:530 | finds a hospital exactly when the name is one of the area's hospital names; the one found has that name |
| Catalog.FindAreaFindsOwn | App.tsx:529 | with distinct area names, looking an area up by its own name finds that area |
| Catalog.FindHospitalFindsOwn | App.tsx:530 | with distinct hospital names, looking a hospital up by its own name finds that hospital |
| Catalog.AreaCount | constants.tsx:21-75 | seven areas, with distinct names |
| Catalog.EarlierHospitalNamesDiffer | constants.tsx:24-72 | two hospitals at different positions (the first listed earlier) have different names |
| Catalog.CatalogHospitalNamesUnique | constants.tsx:24-72 | every hospital name sits at exactly one (area, hospital) position |
| Catalog.HospitalInOneArea | constants.tsx:24-72 | with unique names, a hospital's name is listed by no other area |
| Catalog.FlattenedHospitalsDistinct | App.tsx:316 | unique names make the flattened onboarding list duplicate-free |
| Catalog.UniqueWithinArea | constants.tsx:24-72 | unique names make every area's own list duplicate-free |
| Catalog.HospitalNamesDistinct | App.tsx:316 | the onboarding list and every area's hospital list have no duplicates |
| Catalog.CatalogSizes | constants.tsx:21-75 | every area has two or three hospitals, every hospital at least two staff doctors |
| Catalog.StaffTitled | constants.tsx:26-71 | every staff doctor's name starts with "Dr. " |
| Catalog.StaffDistinct | constants.tsx:26-71 | no hospital lists the same staff doctor twice |
| Store.KeyText | App.tsx:596 | every key starts with `healthlink_`; a profile key continues with `data_`, the two collections' keys with `global_`, so no profile key is spelt like a collection key |
| Store.KeyTextInjective | App.tsx:596 | two keys are spelt alike exactly when they are the same key, so the store may be indexed by key |
| Store.GetGlobalDoctors | App.tsx:13-16 | a missing entry and an empty text read as `[]`; a stored doctor list reads as itself; the read fails (the `JSON.parse` throw) exactly when the entry is anything else |
| Store.GetGlobalAppointments | App.tsx:24-27 | a missing entry and an empty text read as `[]`; a stored booking list reads as itself; the read fails exactly when the entry is anything else |
| Store.LoadProfile | App.tsx:596-600 | fails (the `JSON.parse` throw) exactly when the entry under the key is neither missing, empty, nor a profile of the role asked for; "no profile" exactly when the key is missing or empty; a loaded profile is the stored one and has the role asked for |
| Store.GetPatientDataByEmail | App.tsx:34-39 | fails exactly when the patient profile under the normalised email does not decode; `null` exactly when none is stored |
| Store.EmptyStoreReads | App.tsx:13-39 | an empty store reads as no doctors, no bookings and no patient |
| Store.UnparsableIsNotAbsent | App.tsx:13-39 | in any store, an entry that does not decode makes the read of that entry fail, rather than read as empty |
| Store.DoctorProfilesOwnEmail | App.tsx:313 | the store invariant: a doctor profile stored under an email carries that email |
| Store.ProfileRoundTrip | App.tsx:596-609 | a profile written under (role, email) is what a login with that role and email loads |
| Store.PatientLookupRoundTrip | App.tsx:34-39 | a patient profile written under the normalised email is what the lookup by any email with that normal form finds |
| Store.ProfileWriteKeepsCollections | App.tsx:607 | writing a profile changes neither the registry nor the ledger |
| Store.Without | App.tsx:20 | the registry without the entries of an email, never longer (members in `FilterMembers`) |
| Store.WithEmail | App.tsx:20 | the registry's entries with an email, never longer (members in `FilterMembers`) |
| Store.FilterMembers | App.tsx:20 | the two email filters keep exactly the entries with, and without, the email |
| Store.WithoutConcat | App.tsx:20 | filtering distributes over concatenation |
| Store.WithEmailConcat | App.tsx:20 | filtering on an email distributes over concatenation |
| Store.WithoutIdempotent | App.tsx:20 | filtering an email out twice is filtering it out once |
| Store.WithEmailOfWithout | App.tsx:20 | after dropping an email, no entry has it and the entries of other emails are kept |
| Store.Upsert | App.tsx:18-22 | the upserted registry is at most one longer and ends with the saved doctor |
| Store.UpsertLastWriteWins | App.tsx:18-22 | after `saveGlobalDoctor(d)` the last entry is d, d is the only entry with its email, and other emails' entries are unchanged |
| Store.UpsertOwnEntry | App.tsx:18-22 | after the upsert the only entry with d's email is d |
| Store.UpsertIdempotent | App.tsx:18-22 | saving the same doctor twice equals saving once |
| Store.UpsertKeepsUnique | App.tsx:18-22 | a registry with one entry per email keeps that property |
| Store.WithoutUnique | App.tsx:20 | dropping an email keeps one entry per email |
| Store.LocalStore.SetItem | App.tsx:21 | `setItem` replaces the one entry and keeps all others |
| Store.LocalStore.SaveGlobalDoctor | App.tsx:18-22 | succeeds exactly when the registry reads; the store then holds the upserted registry and nothing else changed; otherwise nothing is written |
| Store.LocalStore.SaveGlobalAppointment | App.tsx:29-32 | succeeds exactly when the ledger reads; the ledger then has the booking appended; otherwise nothing is written |
| Ledger.Visible | App.tsx:628 | a patient sees the bookings under their email, a doctor those carrying their email |
| Ledger.PatientBookings | App.tsx:628 | a patient's list is never longer than the ledger (members in `PatientBookingsMembers`) |
| Ledger.DoctorQueue | App.tsx:453 | a doctor's queue is never longer than the ledger (members in `DoctorQueueMembers`) |
| Ledger.PatientBookingsMembers | App.tsx:628 | a booking is in the patient's list exactly when it is in the ledger under that patient's email |
| Ledger.DoctorQueueMembers | App.tsx:453 | a booking is in a doctor's queue exactly when it is in the ledger with that doctor's email |
| Ledger.StaffBookingInNoQueue | App.tsx:628 | a booking with a staff doctor (no email) is in no signed-in doctor's list |
| Ledger.QueuesDisjoint | App.tsx:628 | the lists of two different emails share no booking |
| Ledger.PatientBookingsAppend | App.tsx:628 | the patient filter distributes over appending a booking |
| Ledger.DoctorQueueAppend | App.tsx:628 | the doctor filter distributes over appending a booking |
| Ledger.VisibleAfterAppend | App.tsx:616-619 | appending a booking adds it to exactly the lists that may see it and leaves the rest unchanged |
| Age.CompletedYears | App.tsx:44-49 | the k-th anniversary has been reached exactly when k is at most the result |
| Age.AgeText | App.tsx:41-51 | "" exactly without a date; otherwise digits with no leading zero; "0" for an unreadable date; otherwise the completed years, with negatives floored at 0 |
| Age.CalculateAge | App.tsx:41-51 | the step-by-step computation (year difference, decremented before the birthday) yields `AgeText` |
| Age.AgeOnBirthday | App.tsx:41-51 | on the k-th birthday the age is k; on the day before (same month) it is k - 1 |
| Age.AgeExamples | App.tsx:41-51 | the ages the day before and on a 24th birthday, a future birth date, and no date |
| Booking.StaffOf | App.tsx:529-531 | a non-empty staff list is the doctor list of a hospital with that name in an area with that name |
| Booking.AtHospital | App.tsx:532 | never longer than the registry |
| Booking.AtHospitalMembers | App.tsx:532 | keeps exactly the registered doctors whose hospital name is the selected one |
| Booking.AtHospitalConcat | App.tsx:532 | the hospital filter distributes over concatenation, so it keeps the registry's order and multiplicity |
| Booking.RegisteredName | App.tsx:532 | a registered doctor is shown as "Dr. " followed by their full name |
| Booking.DoctorsList | App.tsx:528-534 | the candidate list of the dialog (its shape is stated in `DoctorsListShape`) |
| Booking.DoctorsListShape | App.tsx:528-534 | staff first, each without an email, then one entry per registered doctor at that hospital, `Dr. {fullName}` with their email, in order |
| Booking.FindByName | App.tsx:553 | finds an entry exactly when one has the name; the found one is the first with that name |
| Booking.FindByNameFirst | App.tsx:553 | the first entry with the name is the one found |
| Booking.StaffShadowsRegistered | App.tsx:531-533 | a registered doctor whose display name equals a staff doctor's cannot be chosen: the staff entry (no email) is selected |
| Booking.RegisteredSelected | App.tsx:532-553 | a registered doctor with a display name not shadowed is selected with their email |
| Booking.StaffOfOwnArea | App.tsx:529-531 | in the directory, a hospital selected in its own area offers its staff |
| Booking.StaffOfOtherArea | App.tsx:529-531 | with another area selected, a hospital's staff are not offered |
| Booking.BookingForm.constructor | App.tsx:521-525 | the selections start empty when the signed-in layout first renders |
| Booking.BookingForm.SelectArea | App.tsx:544 | choosing an area clears the hospital and keeps the doctor, date and time |
| Booking.BookingForm.SelectHospital | App.tsx:548 | choosing a hospital changes only the hospital |
| Booking.BookingForm.SelectDoctor | App.tsx:552-554 | the first candidate with the name becomes the doctor; an unknown name keeps the selection |
| Booking.BookingForm.SetDate | App.tsx:560 | changes only the date |
| Booking.BookingForm.SetTime | App.tsx:561-564 | changes only the time |
| Booking.BookingForm.Confirm | App.tsx:566-569 | refused exactly when the doctor, date or time is missing; otherwise the paid booking with the form's fields and the patient's name and email |
| Session.TargetView | App.tsx:634 | every non-logout sidebar target is a screen of the sidebar layout |
| Session.CheckLogin | App.tsx:277-282 | the email check comes first; accepted exactly when the email contains '@' and the PIN is six UTF-16 units |
| Session.SixDigitPinAccepted | App.tsx:280 | six decimal digits pass the PIN check |
| Session.SaveProfile | App.tsx:605-614 | the save fails exactly when the role is doctor and the registry cannot be read |
| Session.SavedPatientIsFound | App.tsx:593-609 | a saved patient profile is what a later login with any email of the same normal form loads, and what the patient lookup finds; the registry and ledger are unchanged |
| Session.SavedDoctorIsFound | App.tsx:593-609 | a saved doctor profile is what a later login loads; the registry then holds exactly one entry under the session email, the form with that email; the ledger is unchanged |
| Session.DoctorSaveWrites | App.tsx:605-609 | under a normalised session email, the doctor's save writes the profile and the upserted registry, and leaves the ledger |
| Session.OnboardingKeyIsLoginKey | App.tsx:607 | the key onboarding writes is the key login reads |
| Session.SaveProfileKeepsOwnEmails | App.tsx:605-614 | a save whose doctor form carries the session email keeps the store invariant that doctor profiles carry their own email |
| Session.Portal.BookingPatientName | App.tsx:666 | the patient's full name, or "" with no profile |
| Session.Portal.constructor | App.tsx:580-585 | the app starts on the welcome screen as a patient, with no one signed in and nothing loaded; the invariant holds given a store whose doctor profiles carry their own email |
| Session.Portal.Valid | App.tsx:580-585 | the invariant below, which every handler keeps |
| Session.Portal.Filtered | App.tsx:628 | the visible bookings are never more than the loaded ones (by role, as `Ledger.Visible`) |
| Session.Portal.DashboardQueue | App.tsx:453 | the dashboard's queue is never longer than the loaded bookings |
| Session.Portal.DashboardQueueIsFiltered | App.tsx:453 | on a consistent state the dashboard's queue is the doctor's visible list, so a booking with a staff doctor (no email) is in neither |
| Session.Portal.SelectRole | App.tsx:623 | the chosen role, and the login screen |
| Session.Portal.BackToWelcome | App.tsx:624 | back to the welcome screen, nothing else changed |
| Session.Portal.HandleLoginSuccess | App.tsx:593-603 | the session email is the normalised email; a stored profile is loaded and leads home, none leads to onboarding; an unreadable one fails after the email was set; invariant kept |
| Session.Portal.SubmitLogin | App.tsx:277-282 | a rejected form changes nothing; an accepted one logs in as `HandleLoginSuccess` |
| Session.Portal.WriteProfile | App.tsx:605-614 | the store afterwards is exactly `SaveProfile` of the store before; on failure it is unchanged |
| Session.Portal.SaveDetails | App.tsx:605-614 | the role's profile is loaded and the store is `SaveProfile` of the old store; the other role's profile, the screen and the bookings are kept |
| Session.Portal.HandleOnboardingComplete | App.tsx:605-609 | as `SaveDetails`, then home on success; invariant kept |
| Session.Portal.HandleUpdateDetails | App.tsx:611-614 | as `SaveDetails`, staying on the settings screen; invariant kept |
| Session.Portal.HandleBooking | App.tsx:616-619 | the booking is appended to the stored ledger and the loaded list, and joins the visible list of whoever may see it; an unreadable ledger changes nothing |
| Session.Portal.RefreshAppointments | App.tsx:589-591 | the loaded list becomes the stored ledger; on an unreadable ledger `ok` is false, which stands for the effect's crash |
| Session.Portal.HandleLogout | App.tsx:621 | welcome screen, no session email, no profiles; role, bookings and store kept |
| Session.Portal.Navigate | App.tsx:634 | logout logs out; any other target shows its screen, nothing else changed |
| Session.Portal.ConfirmBooking | App.tsx:566-569 | an incomplete form books nothing; a complete one books the form's booking for the session's patient, and a patient then sees it appended to their list |

`Portal.Valid()` is the invariant the handlers keep:

- the session email is in normal form (no upper-case letter, no whitespace at either end);
- every doctor profile in the store carries the email it is stored under, and a loaded doctor profile carries the session email;
- only the current role's profile is ever loaded;
- nothing is loaded on the welcome and login screens;
- every screen of the sidebar layout has the role's profile to show.

## Left out

- Rendering is not modelled: the JSX and styling, the components `Sidebar`, `TopBar` and `HealthChart`, the profile dialog and the welcome, dashboard, appointments and prescriptions views. Only the state they read is modelled.
- The health-insight service (`services/geminiService.ts`) is not part of this model. It is a network call with a fixed fallback text.
- `CARE_TEAM`, `WELLNESS_HISTORY` and the other display constants are not modelled. They are static lists that are only rendered.
- JSON text is not modelled. The store holds decoded values, and anything that does not decode to the expected shape is `Unparsable`.
- A stored collection of the wrong shape is an error in the model: `Err` on reading, and `SaveGlobalDoctor` or `SaveGlobalAppointment` then write nothing. The source's `getGlobalDoctors` and `getGlobalAppointments` (App.tsx:13-16, 24-27) return whatever `JSON.parse` yields without a throw. An array of other values (such as `[1]`, or bookings under the registry key) is then filtered or extended and written back by `saveGlobalDoctor` and `saveGlobalAppointment` (App.tsx:18-22, 29-32). A non-array such as `{}` throws only later, in `.filter` or the spread.
- A stored profile of the wrong shape is an error in the model. The source would read `undefined` details from a JSON object without `details`, and throw only for `null` or non-JSON text.
- A profile record of the other role under a role's key is an error in the model. Profiles are only ever written under their own role's key.
- Keys are the datatype `Key`, not text. `KeyTextInjective` shows the two are interchangeable.
- Text dates are not modelled: date parsing, time zones and the clock.
  - The date of birth arrives as a (year, month, day) triple, or `InvalidDob` for text `Date` rejects (every getter then yields NaN and the age prints as "0").
  - Today's date is a parameter.
- Booking ids come from `Math.random`. In the model the id is a parameter.
- `alert` messages are not modelled. The checks that trigger them are the `LoginCheck` outcomes and `Confirm` returning `None`.
- The effect that reloads the ledger when the screen or the dialog's visibility changes is not tied to those triggers. It is the separate method `RefreshAppointments`. The dialog's open/close state (`showBooking`, `onClose`) is not modelled.
- Form input plumbing is not modelled: the `onChange` handlers of the onboarding and settings forms, the comma split of the medicines field and `handleDobChange`. The handlers receive the finished record.
- `Text.ToLower` lower-cases ASCII letters only. The source's `toLowerCase` also maps non-ASCII letters.
- Session.Portal.constructor: assumes the initial store's doctor profiles carry the email they are stored under. This app writes them so (App.tsx:313, 607), but a store edited by hand need not be.
- Session.Portal.HandleOnboardingComplete and HandleUpdateDetails require a doctor form to carry the session email. The onboarding form is seeded with it (App.tsx:313), and the settings form keeps the loaded profile's email.
- Session.Portal.SaveDetails: takes the doctor form's email field as given. The registry entry always carries the session email, as the source spreads `email: userEmail` over the form.
- Booking.BookingForm.SelectArea and SelectHospital accept any name. The dialog offers only the directory's areas and the selected area's hospitals, and it keeps the hospital and doctor selects disabled until the previous choice is made (App.tsx:544-552). No property of the model depends on this staging.
- Booking.BookingForm.SetTime: does not restrict the time to the four slots the dialog offers (App.tsx:563), because the source stores whatever value the select reports.
- Booking.BookingForm.SelectArea: keeps a previously chosen doctor when the area changes, as the source does. A booking can then name a doctor of another hospital.
- The booking dialog is mounted with the signed-in layout whatever its visibility (App.tsx:666), and its state hooks run before it returns nothing when closed (App.tsx:521-536). Its selections therefore persist across openings. The doctor `<select>` has no `value` (App.tsx:552), so a reopened dialog shows "Select Doctor" yet confirms the previous doctor, date and time. The model does not capture this: `Portal` holds no `BookingForm`, and `SelectDoctor` takes the registry as a parameter rather than reading the store.
- The login inputs' HTML constraints are not modelled: `type="email"`, `required` and `maxLength={6}` (App.tsx:295-296). The model checks only what `handleSubmit` checks.
- Session.Portal.RefreshAppointments: a throw in the reload effect (App.tsx:589-591) or during rendering unmounts the whole app, since no error boundary catches it; the model's `ok == false` stands for that crash, and the list it keeps afterwards cannot be observed. In the same way, an unreadable registry makes every screen of the signed-in layout throw, because the always-mounted booking dialog reads it on each render (App.tsx:527, 666), and a malformed patient profile makes the doctor dashboard's patient view throw (App.tsx:495). The model's `HandleLoginSuccess`, `Navigate` and `HandleOnboardingComplete` reach such screens without reading those entries.
- Store.LocalStore.SetItem: never fails. The browser's `setItem` can throw `QuotaExceededError` when storage is full, which is not modelled.
- Concurrency between browser tabs sharing `localStorage` is not modelled.
