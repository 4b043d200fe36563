# Sahaaya record screens and medication reminders, modelled in Dafny

Sahaaya is a mobile healthcare assistant. Its patient keeps three lists (medications, emergency contacts, appointments) and one profile, each on its own screen. The app writes each list or profile whole to the device's key-value storage, and it schedules medication reminders with the platform's notification service. This project models:

- **The three list screens** (`Medications`, `Contacts`, `Appointments`), built on the shared list transforms in `RecordList`. A save checks the required fields. It then builds `{id: editingId || Date.now(), ...form, createdAt}`. An edit replaces the matching records by id (`map`); an add appends (spread). A delete keeps every record whose id differs (`filter`). The whole list is written under a fixed key. Each screen is a class with the source's state fields (`list`, `form`, `editingId`, `showModal`) and a `storage` map. Its invariant `Valid()` states that the list on screen equals the list in storage, and every handler preserves it.
- **The profile screen** (`Profile`): a single record with a required `fullName`, written whole, with load, cancel and blood-group selection.
- **The notification service** (`NotificationService`) over a model of the platform's registry of scheduled notifications (`NotificationPlatform.Platform`). It covers the permission decision, "cancel, then schedule one repeating daily reminder", cancellation by medication id (a loop over the registry), cancel-all and a ten-minute snooze.
- **The JavaScript primitives the reminder time goes through** (`JsText`): `split(':')` and `parseInt` as ECMAScript defines them. This includes NaN for a malformed or missing part, since nothing validates "HH:MM".

The medications screen does not use the notification service. It schedules its own reminder with no `data`, so no cancellation by medication id can reach it; only cancel-all removes it (`Medications.ScreenReminderOutlivesCancel`). Editing adds a second reminder, and deleting leaves the reminders in place. The model reproduces this: see `Medications.MedicationsScreen.HandleSave` and `Medications.EditTwiceThenDelete`.

Other behaviour of the code that the model keeps:
- An edit whose id no record carries changes nothing (`RecordList.ReplaceAbsent`).
- The reminder time is never validated, so the parsed hour or minute may be NaN (`NotificationPlatform.ReminderTriggerWithoutColon`).
- Only the notification service cancels a medication's reminders before scheduling a new one (`NotificationService.ScheduleMedicationReminder`).

Inputs from outside the code become parameters:
- `freshId` stands for `Date.now().toString()` and `now` for `new Date().toISOString()`. Ids from `Date.now()` are never checked for uniqueness, so `freshId` is unconstrained.
- `accepted` says whether the platform's `scheduleNotificationAsync` succeeds.
- `confirmed` is the user's answer to the delete dialog.
- `Reply` values are the answers of the permission calls.
- Instants in the snooze trigger are integer minutes.
- Platform notification identifiers are natural numbers from a counter, so they are unique.

## Model

| member | source | states |
|---|---|---|
| `Sequences.Filter` | app/medications.tsx:109 | `filter` keeps exactly the accepted elements: every survivor comes from the input and is accepted, and every accepted input element survives |
| `Sequences.FilterAppend` | app/appointments.tsx:81 | filtering a concatenation filters each part, so survivors keep their relative order |
| `Sequences.FilterCount` | app/contacts.tsx:85 | each accepted value survives with its full multiplicity, and each rejected value disappears |
| `RecordList.SavedId` | app/medications.tsx:61 | the saved id is `editingId` whenever `editingId` is truthy, and the fresh `Date.now()` id when it is null or "" |
| `RecordList.ReplaceById` | app/medications.tsx:68 | `map` keeps the length, and every record of the result is the new record or a record of the list that does not carry the id |
| `RecordList.ReplaceByIdAt` | app/medications.tsx:68 | position by position, `map` puts the new record exactly where the old record's id equals `editingId`, and leaves every other position alone |
| `RecordList.ReplaceAbsent` | app/contacts.tsx:64 | replacing an id no record carries leaves the list unchanged |
| `RecordList.Upsert` | app/medications.tsx:66-71 | add: length grows by one, earlier records keep their positions, the new record is last. Edit: length is kept, exactly the records whose id equals `editingId` become the new record, and when the new record keeps that id every position's id is unchanged |
| `RecordList.RemoveById` | app/medications.tsx:109 | no survivor carries the id, every survivor was in the list, and every record with another id survives |
| `RecordList.RemoveAbsent` | app/contacts.tsx:85 | deleting an absent id leaves the list unchanged |
| `RecordList.RemoveKeepsOrder` | app/appointments.tsx:81 | delete preserves the order of the records it keeps |
| `RecordList.RemoveCount` | app/medications.tsx:109 | delete drops every copy of every record with the id and keeps every copy of every other record |
| `RecordList.RemoveIdempotent` | app/contacts.tsx:85 | deleting the same id twice is deleting it once |
| `JsText.Split` | src/services/NotificationService.js:50 | `split(':')` gives at least one part, and no part contains the separator |
| `JsText.JoinSplit` | src/services/NotificationService.js:50 | joining the parts with the separator gives the original string back |
| `JsText.SplitJoin` | src/services/NotificationService.js:50 | splitting separator-free parts joined by the separator gives those parts back |
| `JsText.ParseInt` | src/services/NotificationService.js:71-72 | a number comes out only when the first character after leading white space is a sign or a decimal digit, and a negative number only after a minus sign |
| `JsText.ParseIntDecimal` | src/services/NotificationService.js:71-72 | `parseInt` of a run of decimal digits is its decimal value, leading zeros included |
| `JsText.ParseIntNegative` | src/services/NotificationService.js:71 | a leading minus sign negates the value |
| `JsText.ParseIntSkipsWhiteSpace` | src/services/NotificationService.js:71 | leading white space is ignored |
| `JsText.ParseIntNoDigits` | src/services/NotificationService.js:72 | a string that starts with no white space, sign or digit parses to NaN |
| `NotificationPlatform.ReminderTrigger` | src/services/NotificationService.js:70-74 | the reminder trigger is a calendar trigger with `repeats` true |
| `NotificationPlatform.ParseIntOfUndefined` | src/services/NotificationService.js:72 | the missing minute part (`undefined`) parses to NaN |
| `NotificationPlatform.ReminderTriggerOfDigits` | src/services/NotificationService.js:50-74 | for any non-empty decimal `hh` and `mm`, the trigger of `hh:mm` has hour `hh` and minute `mm` |
| `NotificationPlatform.ReminderTriggerOfClock` | app/medications.tsx:84-94 | a time written "HH:MM" with hour < 24 and minute < 60 triggers at exactly that hour and minute |
| `NotificationPlatform.ReminderTriggerWithoutColon` | app/medications.tsx:84 | a time without `:` has a NaN minute |
| `NotificationPlatform.ForMedication` | src/services/NotificationService.js:90 | selects exactly the entries whose `data.medicationId` is the id |
| `NotificationPlatform.WithoutMedication` | src/services/NotificationService.js:89-93 | keeps exactly the entries whose `data.medicationId` is not the id |
| `NotificationPlatform.WithoutIdentifier` | src/services/NotificationService.js:91 | cancelling an identifier keeps exactly the entries with another identifier |
| `NotificationPlatform.Platform.Schedule` | src/services/NotificationService.js:56-75 | on success, the new entry is appended with a fresh identifier and that identifier is returned. A failed call changes nothing and answers null |
| `NotificationPlatform.Platform.Cancel` | src/services/NotificationService.js:91 | the registry loses exactly the entry with that identifier |
| `NotificationPlatform.Platform.CancelAll` | src/services/NotificationService.js:102 | the registry becomes empty |
| `NotificationService.RequestNotificationPermissions` | src/services/NotificationService.js:14-45 | the user is asked only when the existing status is not granted. The answer is true iff the final status is granted and no call threw, so any exception gives false |
| `NotificationService.CancelMedicationReminder` | src/services/NotificationService.js:85-97 | the loop removes every entry tagged with the medication id and leaves all other entries, in order |
| `NotificationService.CancelAllMedicationReminders` | src/services/NotificationService.js:100-106 | leaves the registry empty |
| `NotificationService.RescheduleLeavesOne` | src/services/NotificationService.js:53-75 | after cancel-then-schedule, the new entry is the medication's only entry |
| `NotificationService.CancelLeavesOthers` | src/services/NotificationService.js:87-93 | cancelling one medication leaves every other medication's entries exactly as they were |
| `NotificationService.ScheduleMedicationReminder` | src/services/NotificationService.js:48-82 | on success: returns the new identifier, the medication has exactly one entry (the new repeating daily one, at the parsed hour and minute), and other medications are untouched. On failure: returns null, and the medication's old entries are already cancelled |
| `NotificationService.SnoozeNotification` | src/services/NotificationService.js:109-136 | adds one `medication_snooze` entry at now + 10 minutes and cancels nothing, so the daily reminder stays. Returns the identifier, or null on failure |
| `Medications.MedicationsScreen.Mount` | app/medications.tsx:42-45 | the screen starts with the stored list (or an empty list), an empty form with frequency `daily`, no edited id and a closed modal |
| `Medications.MedicationsScreen.OpenForm` | app/medications.tsx:185 | opens the modal and changes nothing else |
| `Medications.MedicationsScreen.ChangeForm` | app/medications.tsx:203-230 | the form takes the typed values; the list and storage are untouched |
| `Medications.MedicationsScreen.HandleSave` | app/medications.tsx:54-97 | an empty name or time changes nothing (no write, no reminder). Otherwise: the record (four fields, id, new `createdAt`) is upserted; storage holds the new list; one untagged repeating daily reminder at the parsed time is added and none is cancelled; the form is reset unless the reminder call failed |
| `Medications.MedicationsScreen.HandleDelete` | app/medications.tsx:99-116 | on confirmation the list loses every record with the id and storage holds the new list. No reminder is cancelled |
| `Medications.MedicationsScreen.HandleEdit` | app/medications.tsx:118-127 | loads the record's four fields and its id, and opens the modal |
| `Medications.MedicationsScreen.ResetForm` | app/medications.tsx:129-133 | empty name, dosage and time, frequency `daily`, no edited id, modal closed |
| `Medications.ScreenReminder` | app/medications.tsx:83-96 | the entry `scheduleNotification` adds repeats daily and is tagged for no medication |
| `Medications.ScreenReminderOutlivesCancel` | app/medications.tsx:83-96 | cancelling any medication's reminders by id keeps a screen reminder, at the end of the registry |
| `Medications.MedicationsScreen.Store` | app/medications.tsx:73-74 | the list on screen and the list under `medications` in storage both become the new list, and the form is untouched |
| `Medications.MedicationsScreen.ScheduleReminder` | app/medications.tsx:77 | succeeds exactly when the platform accepts; then one untagged daily reminder at the time is appended with the next identifier, and nothing is cancelled |
| `Medications.EditAndSave` | app/medications.tsx:54-81 | opening the only record's edit form and saving it replaces the record by itself with a new `createdAt` and registers one more reminder |
| `Medications.SaveTwice` | app/medications.tsx:61-78 | after two edit-saves the list holds the second save's record and the registry holds two screen reminders |
| `Medications.EditTwiceThenDelete` | app/medications.tsx:77 | two edit-saves and a delete leave an empty list and two registered reminders |
| `Contacts.ContactsScreen.Mount` | app/contacts.tsx:40-43 | the screen starts with the stored contacts (or none), an empty form and a closed modal |
| `Contacts.ContactsScreen.OpenForm` | app/contacts.tsx:191 | opens the modal and changes nothing else |
| `Contacts.ContactsScreen.ChangeForm` | app/contacts.tsx:208-226 | the form takes the typed values, with a phone of at most 10 characters (`maxLength`); the list and storage are untouched |
| `Contacts.ContactsScreen.HandleSave` | app/contacts.tsx:45-73 | an empty name or phone is rejected first; then a phone under 10 characters; either rejection writes nothing. The relationship is never required. Otherwise the contact is upserted, storage holds the new list and the form is reset |
| `Contacts.ContactsScreen.HandleDelete` | app/contacts.tsx:75-92 | on confirmation the list loses every contact with the id and storage holds the new list |
| `Contacts.ContactsScreen.HandleEdit` | app/contacts.tsx:94-102 | loads the contact's three fields and id, and opens the modal |
| `Contacts.ContactsScreen.ResetForm` | app/contacts.tsx:120-124 | clears all three fields and the edited id, and closes the modal |
| `Appointments.AppointmentsScreen.Mount` | app/appointments.tsx:41-44 | the screen starts with the stored appointments (or none), an empty form and a closed modal |
| `Appointments.AppointmentsScreen.OpenForm` | app/appointments.tsx:162 | opens the modal and changes nothing else |
| `Appointments.AppointmentsScreen.ChangeForm` | app/appointments.tsx:179-213 | the form takes the typed values; the list and storage are untouched |
| `Appointments.AppointmentsScreen.HandleSave` | app/appointments.tsx:46-69 | an empty doctor name, date or time writes nothing, while hospital and notes may be empty. Otherwise the appointment is upserted, storage holds the new list and the form is reset |
| `Appointments.AppointmentsScreen.HandleDelete` | app/appointments.tsx:71-88 | on confirmation the list loses every appointment with the id and storage holds the new list |
| `Appointments.AppointmentsScreen.HandleEdit` | app/appointments.tsx:90-100 | loads the five fields and the id, and opens the modal |
| `Appointments.AppointmentsScreen.ResetForm` | app/appointments.tsx:102-106 | clears all five fields and the edited id, and closes the modal |
| `Profile.ProfileScreen.Mount` | app/profile.tsx:29-32 | the screen starts not editing, with the stored profile if there is one and the empty profile otherwise |
| `Profile.ProfileScreen.LoadProfile` | app/profile.tsx:41-46 | replaces `profileData` only when a stored profile exists; otherwise nothing changes |
| `Profile.ProfileScreen.StartEditing` | app/profile.tsx:223 | turns editing on |
| `Profile.ProfileScreen.ChangeProfile` | app/profile.tsx:90-196 | while editing, `profileData` takes the typed values; no text input changes the blood group, and the age has at most 3 characters; storage is untouched |
| `Profile.ProfileScreen.SelectBloodGroup` | app/profile.tsx:112-124 | while editing, sets `bloodGroup` to one of the eight offered groups and leaves every other field alone |
| `Profile.ProfileScreen.HandleSave` | app/profile.tsx:48-57 | an empty `fullName` writes nothing and leaves `editing` as it was. Otherwise the unchanged `profileData` is stored under `userProfile` and editing ends |
| `Profile.ProfileScreen.Cancel` | app/profile.tsx:206-209 | editing ends and the stored profile is reloaded |

## Left out

- Rendering, styles, modals as views, alert dialogs, navigation, translations and colours are UI only. On the three list screens the alert a save shows is reported as the `SaveOutcome` value; the profile screen's save answers a `bool` instead.
- Storage is a map value held by each screen. It does not model JSON encoding or failed storage writes: `saveData` swallows its errors and the handlers carry on as if the write happened. It also does not model the sharing of one storage between screens.
- Each handler runs to completion. The model does not capture interleavings between an `await` on storage or the platform and React's state updates, such as a save that happens before the mount-time load has finished.
- The registry calls other than `scheduleNotificationAsync` (listing, cancelling, cancel-all) always succeed in the model. The `catch` paths of `cancelMedicationReminder` and `cancelAllMedicationReminders` are therefore not modelled.
- `NotificationService.RequestNotificationPermissions`: the Android channel settings are not modelled; only whether the channel call threw is.
- Not modelled: the foreground notification handler, notification categories and their buttons, vibration patterns, priorities, notification titles and bodies, and the debug listing `getScheduledNotifications`.
- The medications screen's own `requestNotificationPermission` asks for permission on mount without checking the current status, and alerts when refused. Nothing keeps its answer, so it is left out; the platform's later answer is the `accepted` parameter. The language and dark-mode settings every screen loads are left out too.
- `JsText.ParseInt`: the result is an unbounded integer. It does not model the floating-point rounding of very long digit runs, and it does not model negative zero (the model gives 0).
- `Contacts.ContactsScreen.HandleSave`: the phone length counts Unicode scalar values. JavaScript's `length` counts UTF-16 code units, so characters outside the Basic Multilingual Plane count once here and twice in the source.
- `NotificationService.SnoozeNotification`: time is in whole minutes. The model does not capture the seconds that `new Date()` keeps, or the local-time `setMinutes` arithmetic across a daylight-saving change.
- Records read from storage always have the model's shape. A stored value of another shape under a screen's key reads as "nothing stored".
- `app/home.tsx` (SOS, logout, settings toggles), `app/index.tsx` and `app/_layout.tsx` are not part of this model.
