# SocietyQ: the state holders and screen rules of a housing-society app, in Dafny

SocietyQ is an Android app for the residents of a housing society. Its list screens show notices, deliveries, personal notices, events, monthly bills and lost-and-found reports. It also has a complaint form, a login gate and a screen that shows the user's id as a QR code. All data is simulated. Each screen has a state holder (an Android `ViewModel`) whose fields change through handlers. The screens make their decisions with small if/else rules.

This project models those holders and rules and proves what they promise:

- Each state holder is a Dafny `class` with the same fields. Its handlers are methods whose `ensures` give the whole new state.
- The asynchronous `loadItems` of a list holder is two steps. `BeginLoad` is what runs before the simulated delay. `CompleteLoad(outcome)` is the rest of the `try`, the `catch` for a thrown exception, and the `finally`.
- `LocalDate.now()` and `YearMonth.now()` are parameters (`sampleDay`, `today`, `currentMonth`).
- Random UUIDs are a parameter `ids`. The order `shuffled()` produces is any permutation.
- A `LocalDate` is its epoch day. A `YearMonth` is the month index `year * 12 + month - 1`. Month lengths follow the Gregorian calendar (`calendar.dfy`).
- The preferences store is a class holding an optional logged-in username (`preferences.dfy`).
- The screens' decisions are pure functions over a `Row` record, with the date, month and amount formatters passed in as uninterpreted functions.

Modules, one per source file, plus helpers:

- `Storage`: the records and the action union.
- `ListContract`: what every list holder shares.
- `BaseViewModel`, `BillViewModel`, `LostFoundViewModel`, `LoginViewModel`, `ComplaintViewModel`: the state holders.
- `InfoQrViewModel` (package `com.CodeShark.SocietyQ`) and `RwaInfoQrViewModel` (package `com.cryptic.rwa`): the two QR holders, over the shared builder `QrPayload`.
- `BaseScreen` and `BillScreen`: the screens' decisions.
- Helpers: `Wrappers` (nullable values), `Text` (`isBlank`), `Calendar`, `Lists` (`distinct`, `filterNot`, `sortedByDescending`, counting) and `Preferences`.

The repository has two package trees. The records come from `app/src/main/java/com/CodeShark/SocietyQ/sampleData/storage.kt`, as in the `com.CodeShark.SocietyQ` tree. The sample records and the four basic list holders come from the `com.cryptic.rwa` tree.

The QR payload builder puts a space after each colon, as in `{"Name": "Bob", "uid": "X"}` (`app/src/main/java/com/CodeShark/SocietyQ/viewModel/InfoQrViewModel.kt:48-52`).

The two QR holders also disagree with each other, and the model keeps both versions as written:

- The commented-out info-QR screen (`app/src/main/java/com/CodeShark/SocietyQ/screens/InfoQrScreen.kt:64`) waits while the payload equals `{"Name": "", "uid": ""}`. That is the initial value of the `com.cryptic.rwa` holder, which the screen's imports name.
- The `com.CodeShark.SocietyQ` holder starts from `{"Name": "", "uid": "837ED1100E31W"}`. The screen's test does not recognise this value, so it would show a code for the empty name at once.
- `InfoQrViewModel.InitialValueIsUnnamedPayload` states this.

## Model

| member | source | states |
|---|---|---|
| Storage.Defaults | app/src/main/java/com/CodeShark/SocietyQ/sampleData/storage.kt:9-64 | An omitted delivery location is "At Security Room", an omitted event end date and bill payment date are absent, and an omitted contact is "Contact Security Desk" |
| Storage.NoConstructorInvariants | app/src/main/java/com/CodeShark/SocietyQ/sampleData/storage.kt:9-32 | The records check nothing: a paid bill without a payment date, an unpaid bill with one, and an event ending before it starts can all be built |
| ListContract.FailureMessage | app/src/main/java/com/cryptic/rwa/viewModel/BaseViewModel.kt:195-198 | A failed load's error text starts with the holder's prefix, and the rest is the exception's message, or "null" when it has none |
| BaseViewModel.SampleRecords | app/src/main/java/com/cryptic/rwa/viewModel/BaseViewModel.kt:77-143 | The sample ids are N001/N002, D101/D102, PN001/PN002 and E201/E202 in order; D101 keeps the default location; only E202 has an end date, equal to its start |
| BaseViewModel.NoticeViewModel.constructor | app/src/main/java/com/cryptic/rwa/viewModel/BaseViewModel.kt:157-176 | A new holder has no items and no error, and its first load has begun |
| BaseViewModel.NoticeViewModel.BeginLoad | app/src/main/java/com/cryptic/rwa/viewModel/BaseViewModel.kt:186-188 | The loading flag is up, the error is cleared, and the items are kept |
| BaseViewModel.NoticeViewModel.CompleteLoad | app/src/main/java/com/cryptic/rwa/viewModel/BaseViewModel.kt:189-202 | The flag always ends down; on success the items are exactly [N001, N002]; on failure the items are kept and the error is "Failed to load notices: " and the message |
| BaseViewModel.NoticeViewModel.OnItemClick | app/src/main/java/com/cryptic/rwa/viewModel/BaseViewModel.kt:212-216 | A click dispatches ViewDetails(id, "Notice") and changes no state |
| BaseViewModel.NoticeViewModel.OnAction | app/src/main/java/com/cryptic/rwa/viewModel/BaseViewModel.kt:224-237 | Only ViewDetails has a branch of its own, and no action changes the state |
| BaseViewModel.NoticeViewModel.ConsumeError | app/src/main/java/com/cryptic/rwa/viewModel/BaseViewModel.kt:243-245 | The error is cleared, so a second call changes nothing |
| BaseViewModel.DeliveryViewModel.constructor | app/src/main/java/com/cryptic/rwa/viewModel/BaseViewModel.kt:257-270 | A new holder has no items and no error, and its first load has begun |
| BaseViewModel.DeliveryViewModel.BeginLoad | app/src/main/java/com/cryptic/rwa/viewModel/BaseViewModel.kt:279-281 | The loading flag is up, the error is cleared, and the items are kept |
| BaseViewModel.DeliveryViewModel.CompleteLoad | app/src/main/java/com/cryptic/rwa/viewModel/BaseViewModel.kt:282-291 | The flag always ends down; on success the items are exactly [D101, D102]; on failure the items are kept and the error is "Failed to load deliveries: " and the message |
| BaseViewModel.DeliveryViewModel.OnItemClick | app/src/main/java/com/cryptic/rwa/viewModel/BaseViewModel.kt:301-304 | A click dispatches ViewDetails(id, "Delivery") and changes no state |
| BaseViewModel.DeliveryViewModel.OnAction | app/src/main/java/com/cryptic/rwa/viewModel/BaseViewModel.kt:312-329 | Track and ViewDetails have branches of their own, and no action changes the state |
| BaseViewModel.DeliveryViewModel.ConsumeError | app/src/main/java/com/cryptic/rwa/viewModel/BaseViewModel.kt:334-336 | The error is cleared, so a second call changes nothing |
| BaseViewModel.PersonalNoticeViewModel.constructor | app/src/main/java/com/cryptic/rwa/viewModel/BaseViewModel.kt:349-362 | A new holder has no items and no error, and its first load has begun |
| BaseViewModel.PersonalNoticeViewModel.BeginLoad | app/src/main/java/com/cryptic/rwa/viewModel/BaseViewModel.kt:371-373 | The loading flag is up, the error is cleared, and the items are kept |
| BaseViewModel.PersonalNoticeViewModel.CompleteLoad | app/src/main/java/com/cryptic/rwa/viewModel/BaseViewModel.kt:374-383 | The flag always ends down; on success the items are exactly [PN001, PN002]; on failure the items are kept and the error is "Failed to load personal notices: " and the message |
| BaseViewModel.PersonalNoticeViewModel.OnItemClick | app/src/main/java/com/cryptic/rwa/viewModel/BaseViewModel.kt:393-397 | A click dispatches ViewDetails(id, "Personal Notice") and changes no state |
| BaseViewModel.PersonalNoticeViewModel.OnAction | app/src/main/java/com/cryptic/rwa/viewModel/BaseViewModel.kt:405-417 | Only ViewDetails has a branch of its own, and no action changes the state |
| BaseViewModel.PersonalNoticeViewModel.ConsumeError | app/src/main/java/com/cryptic/rwa/viewModel/BaseViewModel.kt:423-425 | The error is cleared, so a second call changes nothing |
| BaseViewModel.EventViewModel.constructor | app/src/main/java/com/cryptic/rwa/viewModel/BaseViewModel.kt:437-450 | A new holder has no items and no error, and its first load has begun |
| BaseViewModel.EventViewModel.BeginLoad | app/src/main/java/com/cryptic/rwa/viewModel/BaseViewModel.kt:459-461 | The loading flag is up, the error is cleared, and the items are kept |
| BaseViewModel.EventViewModel.CompleteLoad | app/src/main/java/com/cryptic/rwa/viewModel/BaseViewModel.kt:462-471 | The flag always ends down; on success the items are exactly [E201, E202]; on failure the items are kept and the error is "Failed to load events: " and the message |
| BaseViewModel.EventViewModel.OnItemClick | app/src/main/java/com/cryptic/rwa/viewModel/BaseViewModel.kt:481-484 | A click dispatches ViewDetails(id, "Event") and changes no state |
| BaseViewModel.EventViewModel.OnAction | app/src/main/java/com/cryptic/rwa/viewModel/BaseViewModel.kt:492-510 | Rsvp and ViewDetails have branches of their own, and no action changes the state |
| BaseViewModel.EventViewModel.ConsumeError | app/src/main/java/com/cryptic/rwa/viewModel/BaseViewModel.kt:515-517 | The error is cleared, so a second call changes nothing |
| Calendar.MonthLength | app/src/main/java/com/CodeShark/SocietyQ/viewModel/BillViewModel.kt:122 | A month has 28 to 31 days, and 29 exactly for February of a Gregorian leap year |
| Calendar.EndOfMonthThenNextMonth | app/src/main/java/com/CodeShark/SocietyQ/viewModel/BillViewModel.kt:122 | The day after a month's last day is the first day of the next month, so the month lengths and the day count agree |
| Calendar.LaterMonthLaterDay | app/src/main/java/com/CodeShark/SocietyQ/viewModel/BillViewModel.kt:122-123 | Every day of a month comes before every day of any later month |
| Calendar.EpochOrigin | app/src/main/java/com/CodeShark/SocietyQ/viewModel/BillViewModel.kt:123 | The day count puts 1970-01-01 at day 0 and 2000-03-01 at day 11017 |
| Calendar.MonthIndexRoundTrip | app/src/main/java/com/CodeShark/SocietyQ/sampleData/storage.kt:27 | A month index gives back the year and the month it was built from |
| BillViewModel.BillViewModel.GenerateSampleBills | app/src/main/java/com/CodeShark/SocietyQ/viewModel/BillViewModel.kt:107-145 | The loop's ten paid bills, the appended unpaid bill and the sort together yield exactly the sample bills: the current month's unpaid bill first, then the ten months before, newest first |
| BillViewModel.SampleBillsShape | app/src/main/java/com/CodeShark/SocietyQ/viewModel/BillViewModel.kt:107-145 | There are 11 bills, one month each from the current month back, strictly descending by month, only the first unpaid, all "Maintenance" bills of 500 |
| BillViewModel.ExactlyOneUnpaidSampleBill | app/src/main/java/com/CodeShark/SocietyQ/viewModel/BillViewModel.kt:114-141 | Exactly one sample bill is unpaid |
| BillViewModel.SampleBillDates | app/src/main/java/com/CodeShark/SocietyQ/viewModel/BillViewModel.kt:122-139 | Each bill is due five days before the end of its month; a paid bill was paid on the fifteenth of its own month, before it fell due; the unpaid bill has no payment date |
| BillViewModel.SampleBillDueDatesDescending | app/src/main/java/com/CodeShark/SocietyQ/viewModel/BillViewModel.kt:122-144 | Newer sample bills fall due strictly later |
| BillViewModel.LaterMonthFallsDueLater | app/src/main/java/com/CodeShark/SocietyQ/viewModel/BillViewModel.kt:122 | A bill for a later month falls due strictly later than one for an earlier month |
| BillViewModel.PaidBillDates | app/src/main/java/com/CodeShark/SocietyQ/viewModel/BillViewModel.kt:119-125 | A paid bill built by the loop is due five days before its month's end and was paid on the fifteenth, before it fell due |
| BillViewModel.SortingThePastBills | app/src/main/java/com/CodeShark/SocietyQ/viewModel/BillViewModel.kt:114-144 | Sorting the loop's ten paid bills with the current month's unpaid bill appended puts the unpaid bill first and keeps the paid ones in their order |
| BillViewModel.BillViewModel.constructor | app/src/main/java/com/CodeShark/SocietyQ/viewModel/BillViewModel.kt:21-33 | A new holder has no items and no error, and its first load has begun |
| BillViewModel.BillViewModel.BeginLoad | app/src/main/java/com/CodeShark/SocietyQ/viewModel/BillViewModel.kt:43-44 | The loading flag is up, the error is cleared, and the items are kept |
| BillViewModel.BillViewModel.CompleteLoad | app/src/main/java/com/CodeShark/SocietyQ/viewModel/BillViewModel.kt:45-55 | The flag always ends down; on success the items are the generated bills; on failure the items are kept and the error is "Failed to load bills: " and the message |
| BillViewModel.BillViewModel.OnItemClick | app/src/main/java/com/CodeShark/SocietyQ/viewModel/BillViewModel.kt:64-68 | A click dispatches ViewDetails(id, "Bill") and changes no state |
| BillViewModel.BillViewModel.OnAction | app/src/main/java/com/CodeShark/SocietyQ/viewModel/BillViewModel.kt:75-97 | PayBill(id) and DownloadReceipt(id) set the error to their simulated status messages naming the bill; every other action changes nothing; items and loading are never touched |
| BillViewModel.BillViewModel.ConsumeError | app/src/main/java/com/CodeShark/SocietyQ/viewModel/BillViewModel.kt:102-104 | The error is cleared, so a second call changes nothing |
| LostFoundViewModel.SampleLostFoundItems | app/src/main/java/com/CodeShark/SocietyQ/viewModel/LostFoundViewModel.kt:106-156 | The five reports before shuffling carry the five ids in order |
| LostFoundViewModel.SampleCounts | app/src/main/java/com/CodeShark/SocietyQ/viewModel/LostFoundViewModel.kt:109-154 | The list has three found reports, two lost ones, and one without an image |
| LostFoundViewModel.ShuffledSampleCounts | app/src/main/java/com/CodeShark/SocietyQ/viewModel/LostFoundViewModel.kt:109-155 | Any permutation of the reports has three found, two lost and one without an image |
| LostFoundViewModel.ShuffledSampleFields | app/src/main/java/com/CodeShark/SocietyQ/viewModel/LostFoundViewModel.kt:109-155 | In any order there are five reports. Each uses the desk's default contact, was reported within the last seven days, and has a description. Only the toy car has no image |
| LostFoundViewModel.LostFoundViewModel.constructor | app/src/main/java/com/CodeShark/SocietyQ/viewModel/LostFoundViewModel.kt:23-35 | A new holder has no items and no error, and its first load has begun |
| LostFoundViewModel.LostFoundViewModel.BeginLoad | app/src/main/java/com/CodeShark/SocietyQ/viewModel/LostFoundViewModel.kt:48-51 | The loading flag rises only when there are no items yet, the error is cleared, and the items are kept |
| LostFoundViewModel.LostFoundViewModel.CompleteLoad | app/src/main/java/com/CodeShark/SocietyQ/viewModel/LostFoundViewModel.kt:52-65 | The flag always ends down; on success the items are a permutation of the five reports; on failure the items are kept and the error is "Failed to load lost & found items: " and the message |
| LostFoundViewModel.LostFoundViewModel.OnItemClick | app/src/main/java/com/CodeShark/SocietyQ/viewModel/LostFoundViewModel.kt:75-79 | A click dispatches ViewDetails(id, "LostFoundItem") and changes no state |
| LostFoundViewModel.LostFoundViewModel.OnAction | app/src/main/java/com/CodeShark/SocietyQ/viewModel/LostFoundViewModel.kt:87-96 | Only ViewDetails has a branch of its own, and no action changes the state |
| LostFoundViewModel.LostFoundViewModel.ConsumeError | app/src/main/java/com/CodeShark/SocietyQ/viewModel/LostFoundViewModel.kt:101-103 | The error is cleared, so a second call changes nothing |
| LoginViewModel.AttemptResult | app/src/main/java/com/CodeShark/SocietyQ/viewModel/LoginViewModel.kt:51-89 | A login attempt has one of three outcomes. A blank username is refused with "Username cannot be empty", and nothing is saved or called. Otherwise the username is saved and the callback runs, unless the save throws. A throw leaves "Login failed: " and the message. There is no error exactly when the username is not blank and nothing throws |
| LoginViewModel.AttemptErrorsAreDistinct | app/src/main/java/com/CodeShark/SocietyQ/viewModel/LoginViewModel.kt:54-85 | The refusal message is left exactly when the username is blank; no failure message can be mistaken for it |
| LoginViewModel.LoginViewModel.AttemptLogin | app/src/main/java/com/CodeShark/SocietyQ/viewModel/LoginViewModel.kt:51-89 | The error, the callback and the stored username are as AttemptResult of the username says. The username and password are unchanged. No login is left in flight, as every login handler keeps (`Valid`). The password plays no part |
| LoginViewModel.LoginViewModel.constructor | app/src/main/java/com/CodeShark/SocietyQ/viewModel/LoginViewModel.kt:19-29 | Username and password start empty, nothing is loading and there is no error |
| LoginViewModel.LoginViewModel.OnUsernameChange | app/src/main/java/com/CodeShark/SocietyQ/viewModel/LoginViewModel.kt:33-36 | Only the username changes, and the error is cleared |
| LoginViewModel.LoginViewModel.OnPasswordChange | app/src/main/java/com/CodeShark/SocietyQ/viewModel/LoginViewModel.kt:38-42 | Only the password changes, and the error is cleared |
| LoginViewModel.LoginViewModel.ConsumeLoginError | app/src/main/java/com/CodeShark/SocietyQ/viewModel/LoginViewModel.kt:91-93 | The error is cleared, so a second call changes nothing |
| Preferences.UserPreferences.SaveLogin | app/src/main/java/com/CodeShark/SocietyQ/viewModel/LoginViewModel.kt:78 | After saving, the store's logged-in username is the saved one |
| ComplaintViewModel.AvailableSubjectsShape | app/src/main/java/com/cryptic/rwa/viewModel/ComplaintViewModel.kt:26-37 | The picker has ten entries, none twice, the hint "Select Subject..." first and "Others" last |
| ComplaintViewModel.SubjectErrorFor | app/src/main/java/com/cryptic/rwa/viewModel/ComplaintViewModel.kt:168-179 | The subject error is nothing, "Please select a subject" or "Please specify the subject for 'Others'", the first exactly when the hint is still selected |
| ComplaintViewModel.DetailsErrorFor | app/src/main/java/com/cryptic/rwa/viewModel/ComplaintViewModel.kt:182-187 | The details error is nothing or "Please provide details", nothing exactly when the details are not blank |
| ComplaintViewModel.SubmitEnabledIffNoErrors | app/src/main/java/com/cryptic/rwa/viewModel/ComplaintViewModel.kt:68-74 | The submit button is enabled exactly when nothing is being submitted and validation would set neither field error |
| ComplaintViewModel.ComplaintViewModel.constructor | app/src/main/java/com/cryptic/rwa/viewModel/ComplaintViewModel.kt:22-64 | A new form is a complaint with the hint as subject, empty texts and media, no errors, not loading, and submit disabled |
| ComplaintViewModel.ComplaintViewModel.OnTypeSelected | app/src/main/java/com/cryptic/rwa/viewModel/ComplaintViewModel.kt:79-81 | Only the type changes |
| ComplaintViewModel.ComplaintViewModel.OnSubjectSelected | app/src/main/java/com/cryptic/rwa/viewModel/ComplaintViewModel.kt:83-93 | The subject is set. The subject error is cleared unless the hint was picked. The typed subject is cleared unless "Others" was picked. Nothing else changes |
| ComplaintViewModel.ComplaintViewModel.OnOtherSubjectChanged | app/src/main/java/com/cryptic/rwa/viewModel/ComplaintViewModel.kt:95-101 | The typed subject is set. The subject error is cleared exactly when "Others" is selected and the text is not blank |
| ComplaintViewModel.ComplaintViewModel.OnDetailsChanged | app/src/main/java/com/cryptic/rwa/viewModel/ComplaintViewModel.kt:103-109 | The details are set. The details error is cleared exactly when they are not blank |
| ComplaintViewModel.ComplaintViewModel.OnMediaSelected | app/src/main/java/com/cryptic/rwa/viewModel/ComplaintViewModel.kt:111-121 | The media are the old ones followed by the new ones with repeats dropped. The old list stays in front, in order; every new medium is attached; none is attached twice |
| ComplaintViewModel.ComplaintViewModel.OnRemoveMedia | app/src/main/java/com/cryptic/rwa/viewModel/ComplaintViewModel.kt:123-128 | The medium is gone and the others keep their order. The list shrinks by one exactly when the medium was attached |
| ComplaintViewModel.ComplaintViewModel.ValidateForm | app/src/main/java/com/cryptic/rwa/viewModel/ComplaintViewModel.kt:164-192 | Both field errors are set from the current subject and details, the details even when the subject fails, and the form is valid exactly when neither is set |
| ComplaintViewModel.ComplaintViewModel.OnSubmitClicked | app/src/main/java/com/cryptic/rwa/viewModel/ComplaintViewModel.kt:130-133 | The form is validated, and a submission starts, with the loading flag up, exactly when validation passes. This is the submit rule with the loading flag ignored, so it holds even while a submission is in flight. Otherwise only the field errors change |
| ComplaintViewModel.ComplaintViewModel.CompleteSubmission | app/src/main/java/com/cryptic/rwa/viewModel/ComplaintViewModel.kt:142-153 | The loading flag goes down and the snackbar shows "Submission Successful!" |
| ComplaintViewModel.ComplaintViewModel.ConsumeSnackbarError | app/src/main/java/com/cryptic/rwa/viewModel/ComplaintViewModel.kt:158-160 | The snackbar message is cleared, so a second call changes nothing |
| ComplaintViewModel.ComplaintViewModel.ClearForm | app/src/main/java/com/cryptic/rwa/viewModel/ComplaintViewModel.kt:194-203 | The form is back to its first values; the snackbar message and the loading flag are kept |
| QrPayload.Build | app/src/main/java/com/CodeShark/SocietyQ/viewModel/InfoQrViewModel.kt:48-52 | The payload is the opening, the name, the separator, the uid and the closing, each at its place |
| QrPayload.ParseBuild | app/src/main/java/com/CodeShark/SocietyQ/viewModel/InfoQrViewModel.kt:48-52 | A name without quotes, and any uid, can be read back from the payload |
| QrPayload.BuildIsAmbiguous | app/src/main/java/com/CodeShark/SocietyQ/viewModel/InfoQrViewModel.kt:49-52 | Names are not escaped, so two different name and uid pairs can give the same payload |
| InfoQrViewModel.InfoQrViewModel.constructor | app/src/main/java/com/CodeShark/SocietyQ/viewModel/InfoQrViewModel.kt:27-58 | The name starts empty, the uid is "837ED1100E31W", and the payload is the written-out initial value |
| InfoQrViewModel.InfoQrViewModel.LoadUserName | app/src/main/java/com/CodeShark/SocietyQ/viewModel/InfoQrViewModel.kt:35-41 | The name becomes the stored username, or "Unknown User" when none is stored |
| InfoQrViewModel.InfoQrViewModel.QrCodeJsonData | app/src/main/java/com/CodeShark/SocietyQ/viewModel/InfoQrViewModel.kt:48-53 | The payload is the template filled in with the current name and uid, and it reads back as that name and uid whenever the name has no quote |
| InfoQrViewModel.InitialValueIsUnnamedPayload | app/src/main/java/com/CodeShark/SocietyQ/viewModel/InfoQrViewModel.kt:58 | The initial value is the payload of an empty name and the uid. It is not the placeholder the info-QR screen waits on, so that screen would show it |
| RwaInfoQrViewModel.QrCodeJsonData | app/src/main/java/com/cryptic/rwa/viewModel/InfoQrViewModel.kt:21-34 | The payload reads back as "Mouse321" and "837ED1100E31W" |
| RwaInfoQrViewModel.SteadyPayload | app/src/main/java/com/cryptic/rwa/viewModel/InfoQrViewModel.kt:21-34 | The steady payload is {"Name": "Mouse321", "uid": "837ED1100E31W"} |
| RwaInfoQrViewModel.PlaceholderIsEmptyPayload | app/src/main/java/com/cryptic/rwa/viewModel/InfoQrViewModel.kt:37 | The placeholder is the payload of an empty name and uid, and it differs from the steady payload |
| RwaInfoQrViewModel.ScreenWaitsForSteadyPayload | app/src/main/java/com/CodeShark/SocietyQ/screens/InfoQrScreen.kt:64 | The screen's test waits on this holder's placeholder and shows its steady payload |
| BaseScreen.SelectBody | app/src/main/java/com/cryptic/rwa/screens/BaseScreen.kt:290-309 | The spinner shows exactly while loading with no items. The list shows exactly when there are items, during a reload too. "No items found." shows exactly when not loading, with no items and no error. Otherwise the body is blank |
| BaseScreen.NoticeItem | app/src/main/java/com/cryptic/rwa/screens/BaseScreen.kt:317-355 | A notice row passes its own id on a click and always has a second line. The expiry shows exactly when there is one, tinted as an alert exactly when it lies strictly before today. The issuer is the third line. There are no buttons |
| BaseScreen.DeliveryItem | app/src/main/java/com/cryptic/rwa/screens/BaseScreen.kt:359-392 | A delivery row passes its own id, shows the received date and the location, and offers only Track(id, no URL) |
| BaseScreen.EventItem | app/src/main/java/com/cryptic/rwa/screens/BaseScreen.kt:395-437 | An event row shows "Ends: " and the end date exactly when there is one. It offers "Maybe" (not attending), then "Attend" |
| BaseScreen.SampleNoticeRows | app/src/main/java/com/cryptic/rwa/screens/BaseScreen.kt:317-355 | The water-supply notice is tinted as expired from two days after its sample day on, not on its expiry day. The meeting minutes have no expiry line |
| BillScreen.StatusText | app/src/main/java/com/cryptic/rwa/screens/BillScreen.kt:79-102 | The status begins "Paid on: " exactly when the bill is paid and has a payment day, then shows that day; otherwise it is "Paid" or "Pending" |
| BillScreen.BillItem | app/src/main/java/com/cryptic/rwa/screens/BillScreen.kt:72-143 | An unpaid bill has the unread dot. The heading is the type, " - " and the month. The due date is tinted as an alert exactly when the bill is unpaid and past due. A paid bill offers only DownloadReceipt(id), an unpaid one only PayBill(id) |
| BillScreen.SampleBillRows | app/src/main/java/com/cryptic/rwa/screens/BillScreen.kt:99-140 | Among the sample bills' rows, only the newest offers "Pay Now". Every other shows the fifteenth of its month as its payment day. Only the newest can be overdue, and it is exactly once today is past its due date |
| Lists.Distinct | app/src/main/java/com/cryptic/rwa/viewModel/ComplaintViewModel.kt:119 | distinct() holds every element once and only once, in the order of first occurrence |
| Lists.AppendDistinctKeepsOld | app/src/main/java/com/cryptic/rwa/viewModel/ComplaintViewModel.kt:117-120 | Appending to a list without repeats and dropping repeats keeps the old list in front, unchanged |
| Lists.FilterNot | app/src/main/java/com/cryptic/rwa/viewModel/ComplaintViewModel.kt:126 | filterNot drops exactly the copies of the element and keeps the rest in order |
| Lists.FilterNotMultiset | app/src/main/java/com/cryptic/rwa/viewModel/ComplaintViewModel.kt:126 | filterNot takes out every copy of the element and leaves the count of every other element unchanged |
| Lists.FilterNotLength | app/src/main/java/com/cryptic/rwa/viewModel/ComplaintViewModel.kt:125-127 | In a list without repeats, filtering removes one element if it is there and none otherwise |
| Lists.SortedByDescending | app/src/main/java/com/CodeShark/SocietyQ/viewModel/BillViewModel.kt:144 | sortedByDescending yields a permutation sorted by the key, largest first |
| Lists.SortMovesNewestToFront | app/src/main/java/com/CodeShark/SocietyQ/viewModel/BillViewModel.kt:114-144 | Sorting a strictly descending list with an appended element whose key beats all others moves that element to the front and keeps the rest |
| Lists.Shuffled | app/src/main/java/com/CodeShark/SocietyQ/viewModel/LostFoundViewModel.kt:155 | shuffled() returns the same elements, each as often, in an order left open |
| Lists.CountOfPermutation | app/src/main/java/com/CodeShark/SocietyQ/viewModel/LostFoundViewModel.kt:155 | Shuffling does not change how many elements satisfy a test |

## Left out

- Coroutines and flows (`viewModelScope.launch`, `delay`, `combine`, `stateIn`, `WhileSubscribed`): each load, login or submission runs to its end in the model. Overlapping loads, cancellation and late completion are not modelled. The source defines none of them.
- `isSubmitEnabled` and both `qrCodeJsonData` flows are read from the current state. The stale values a flow can hold before it recombines are not modelled. These include the initial `false` of `isSubmitEnabled` while nothing subscribes, and the `com.cryptic.rwa` placeholder. The placeholder is stated as a constant (`RwaInfoQrViewModel.Placeholder`). The `com.CodeShark.SocietyQ` initial value is the payload of the initial state (`InfoQrViewModel.InitialValueIsUnnamedPayload`).
- Lists.SortedByDescending: stability is not stated. The only keys sorted are bill months, and they are distinct.
- BillViewModel.BillViewModel.OnAction: the source sets the message inside a launched coroutine. In the model it is set before the method returns.
- Time: `LocalDate.now()` and `YearMonth.now()` are parameters, and every sample record of a holder uses the same day.
- Randomness: UUIDs are a parameter, and `shuffled()` is any permutation.
- Persistence: `UserPreferences` is a class holding an optional username. Its Android `SharedPreferences` code is not part of this model. A save that throws is taken to store nothing. `isLoggedIn` and `logout` are only called from `MainActivity.kt` and are left out.
- Formatting: `formatDate`, `formatMonthYear` and the `"₹%.2f"` amount format are uninterpreted parameters (`BaseScreen.Formats`).
- The bill amount is the `Double` 500.00 in the source and the whole number 500 here. No other amount occurs, and floating point is out of scope.
- `isBlank` uses a fixed set of six ASCII whitespace characters, not Kotlin's full Unicode whitespace test.
- The complaint submission's failure branch (`"Submission Failed. Please try again."`) is left out: the simulated outcome is the constant `true`, so that branch cannot run.
- `println` logging is left out. This includes the log lines that make up every `onAction` branch except the bill holder's status messages.
- Compose layout, icons, colours, spacing, navigation, the snackbar's timing and the `LaunchedEffect` that calls `consumeError` are left out. Tints are kept only as "alert" or "subdued".
- `LostFoundScreen.kt` is left out: its body selection repeats `BaseListScreen`'s, and the rest renders images.
- `InfoQrScreen.kt` is commented out, and the QR encoding belongs to a third-party library. Only its readiness test at line 64 is stated, as `RwaInfoQrViewModel.ScreenShowsCode`.
- The list key in `BaseListScreen` (an id, or a hash code) is left out.
- `ComplaintScreen.kt`, both `MainActivity.kt` files, both `preview.kt` files and `build.gradle.kts` are left out. They hold layout, the media picker and permission flow, navigation and build settings.
- The sample data in the `com.cryptic.rwa` tree comes from a `sampleData` file that is not part of this model. The records of `app/src/main/java/com/CodeShark/SocietyQ/sampleData/storage.kt` stand in for it.
