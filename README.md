# Mẹ và Bé: a verified model of the app's screens and view models

This project models, in Dafny, the logic of a pregnancy-tracking Android app written in Kotlin with Jetpack Compose. The app's screens cover:

- the birth plan (*lập trình sinh*): questions whose options the mother ticks, with every tick saved to the server;
- daily activities and their progress counter;
- the vaccination record;
- the pregnancy summary on the home screen and its update form;
- the week-by-week growth view;
- the prenatal visit book (*sổ khám thai*);
- child information, registration and login;
- the chat with a doctor;
- vitamins, products, crisis weeks and food posts (*dấu ăn thai kỳ*);
- the grid layout used by the care screen.

Each view model and each screen's `remember` state becomes a Dafny `class` whose fields are that state. Each event handler becomes a method with `modifies` and `ensures` clauses. A coroutine that calls the server is split in two:

- the part that runs when the event fires (for example `BeginSave` or `Submit`);
- a `Complete…` method that receives the call's result as an `Outcome`: either `Ok(value)`, or `Fail` with an I/O, HTTP or other failure.

What a screen draws is a function from that state to a `View` datatype. Lookups, merges, URL building and validation are functions, and lemmas state what they mean. The Kotlin library behaviour the screens rely on is written out in module `Text`:

- `isBlank` and `trim`;
- `toIntOrNull` with its 32-bit range;
- `%02d` zero padding;
- `substringBefore`;
- case-insensitive `contains`.

Files:

- `common.dfy`: `Wrappers` (nullable values), `Text` and `Remote` (call outcomes, HTTP responses, the API root).
- `birth_plan.dfy`, `birth_plan_screen.dfy`: the birth-plan view model and its screen.
- `activities.dfy`: daily activities. `vaccinations.dfy`: the vaccination record. `pregnancy.dfy`: the home screen's summary and form.
- `grid.dfy`: the care screen's grid layout. `child_info.dfy`, `register.dfy`, `login.dfy`: the forms.
- `visits.dfy`: the visit book. `growth.dfy`: growth by week. `chat.dfy`: the doctor chat. `vitamins.dfy`: the vitamin view model.
- `products.dfy`, `crisis_week.dfy`, `food_posts.dfy`: the list screens.

## Model

| member | source | states |
|---|---|---|
| Text.TrimSpec | app/src/main/java/com/example/ltdd/ui/screens/ChatScreen.kt:249 | `trim()` leaves no whitespace at either end, and gives the empty string exactly when the input is blank |
| Text.ParseIntOfIntToString | app/src/main/java/com/example/ltdd/ui/screens/GrowthScreen.kt:145 | `toIntOrNull` of a printed 32-bit number gives the number back |
| Text.PadTwoSpec | app/src/main/java/com/example/ltdd/ui/screens/ShopScreen.kt:267 | `%02d` prints at least two digits that still denote the number, with a leading zero only when the result has exactly two digits |
| Text.ParseTwoDigits | app/src/main/java/com/example/ltdd/ui/screens/ChildInfoScreen.kt:158 | a one- or two-digit string always parses, to its decimal value, below 100 |
| Text.SubstringBefore | app/src/main/java/com/example/ltdd/ui/screens/SanphamScreen.kt:221 | `substringBefore` is the longest prefix without the delimiter, ending at the delimiter or at the end |
| BirthPlan.FindQuestionSpec | app/src/main/java/com/example/ltdd/viewmodel/BirthPlanViewModel.kt:120-122 | `find` by id gives the first question with that id, and null exactly when no question has it |
| BirthPlan.FindOptionSpec | app/src/main/java/com/example/ltdd/viewmodel/BirthPlanViewModel.kt:58 | `find` by option id gives the first option with that id, and null exactly when there is none |
| BirthPlan.PreviousSelectionSpec | app/src/main/java/com/example/ltdd/viewmodel/BirthPlanViewModel.kt:55-59 | the selection carried over is true exactly when the option was selected before under the same question id and option id |
| BirthPlan.MergeSelectionsSpec | app/src/main/java/com/example/ltdd/viewmodel/BirthPlanViewModel.kt:54-63 | a re-fetch keeps the fetched questions and options in order and sets each option's flag from the previous list, discarding the server's |
| BirthPlan.FirstFetchSelectsNothing | app/src/main/java/com/example/ltdd/viewmodel/BirthPlanViewModel.kt:54-63 | on the first fetch no option is selected |
| BirthPlan.SelectInOptions | app/src/main/java/com/example/ltdd/viewmodel/BirthPlanViewModel.kt:76-84 | only options with the ticked id change, and only their flag; one save request per matching option |
| BirthPlan.ApplySelection | app/src/main/java/com/example/ltdd/viewmodel/BirthPlanViewModel.kt:72-90 | ticking keeps every question's shape, sets the flag of exactly the matching options, and issues one save request per match |
| BirthPlan.NoMatchNoChange | app/src/main/java/com/example/ltdd/viewmodel/BirthPlanViewModel.kt:72-90 | ticking an id that matches no option changes nothing and saves nothing |
| BirthPlan.RepeatedSelectionIdempotent | app/src/main/java/com/example/ltdd/viewmodel/BirthPlanViewModel.kt:72-90 | applying the same tick twice gives the same list as once |
| BirthPlan.SaveOutcomeState | app/src/main/java/com/example/ltdd/viewmodel/BirthPlanViewModel.kt:92-117 | a save ends in SaveSuccess exactly for a 2xx answer whose body says success (with its message or the default); otherwise SaveError with the failure or connection prefix |
| BirthPlan.BirthPlanViewModel.constructor | app/src/main/java/com/example/ltdd/viewmodel/BirthPlanViewModel.kt:26-33 | starts Idle with no questions and no user |
| BirthPlan.BirthPlanViewModel.SetUserId | app/src/main/java/com/example/ltdd/viewmodel/BirthPlanViewModel.kt:40-45 | a fetch starts exactly when the user id changes; the id is stored |
| BirthPlan.BirthPlanViewModel.FetchBirthPlanQuestions | app/src/main/java/com/example/ltdd/viewmodel/BirthPlanViewModel.kt:48-49 | the state becomes Loading |
| BirthPlan.BirthPlanViewModel.CompleteFetch | app/src/main/java/com/example/ltdd/viewmodel/BirthPlanViewModel.kt:50-70 | success merges the previous selections into the fetched list and shows it; failure shows the load error and keeps the list |
| BirthPlan.BirthPlanViewModel.UpdateOptionSelection | app/src/main/java/com/example/ltdd/viewmodel/BirthPlanViewModel.kt:72-90 | the list and save requests are those of ApplySelection |
| BirthPlan.BirthPlanViewModel.BeginSave | app/src/main/java/com/example/ltdd/viewmodel/BirthPlanViewModel.kt:92-94 | the state becomes Saving |
| BirthPlan.BirthPlanViewModel.CompleteSave | app/src/main/java/com/example/ltdd/viewmodel/BirthPlanViewModel.kt:95-117 | the state becomes SaveOutcomeState of the call |
| BirthPlan.BirthPlanViewModel.GetQuestionById | app/src/main/java/com/example/ltdd/viewmodel/BirthPlanViewModel.kt:120-122 | null exactly when no question has the id, else the first such question |
| BirthPlanScreen.AnySelected | app/src/main/java/com/example/ltdd/ui/screens/LapTrinhSinh.kt:59 | true exactly when some option is selected |
| BirthPlanScreen.TickMarksAnswered | app/src/main/java/com/example/ltdd/ui/screens/LapTrinhSinh.kt:110-118 | after ticking an option its question shows as answered |
| BirthPlanScreen.UntickLastClearsAnswered | app/src/main/java/com/example/ltdd/ui/screens/LapTrinhSinh.kt:110-118 | unticking the only selected option makes the question unanswered |
| BirthPlanScreen.FirstFetchUnanswered | app/src/main/java/com/example/ltdd/ui/screens/LapTrinhSinh.kt:290 | after a first fetch no question shows as answered |
| BirthPlanScreen.Render | app/src/main/java/com/example/ltdd/ui/screens/LapTrinhSinh.kt:259-328 | spinner while loading or saving, the list after a fetch or save, the error prompt with retry on a failed fetch, the load prompt when idle |
| BirthPlanScreen.SnackbarText | app/src/main/java/com/example/ltdd/ui/screens/LapTrinhSinh.kt:164-183 | a snackbar shows exactly after a save finished, with its message |
| BirthPlanScreen.SaveFeedback | app/src/main/java/com/example/ltdd/ui/screens/LapTrinhSinh.kt:164-183 | every finished save shows a snackbar, and it carries the server's message on success |
| BirthPlanScreen.RowClick | app/src/main/java/com/example/ltdd/ui/screens/LapTrinhSinh.kt:110 | a row click asks to flip that option's flag |
| BirthPlanScreen.CheckboxChange | app/src/main/java/com/example/ltdd/ui/screens/LapTrinhSinh.kt:114-118 | the checkbox asks for the flag it was set to |
| BirthPlanScreen.BirthPlanScreenState.constructor | app/src/main/java/com/example/ltdd/ui/screens/LapTrinhSinh.kt:157-158 | no dialog and no selected question |
| BirthPlanScreen.BirthPlanScreenState.OpenDialog | app/src/main/java/com/example/ltdd/ui/screens/LapTrinhSinh.kt:294-295 | the dialog opens on the clicked question |
| BirthPlanScreen.BirthPlanScreenState.Dismiss | app/src/main/java/com/example/ltdd/ui/screens/LapTrinhSinh.kt:129-137 | the dialog closes |
| BirthPlanScreen.BirthPlanScreenState.SelectOption | app/src/main/java/com/example/ltdd/ui/screens/LapTrinhSinh.kt:331-338 | ticking in the dialog updates the view model as ApplySelection and keeps the dialog and its snapshot |
| BirthPlanScreen.BirthPlanScreenState.PressReload | app/src/main/java/com/example/ltdd/ui/screens/LapTrinhSinh.kt:302-327 | the prompt's button starts a fetch |
| Activities.Associate | app/src/main/java/com/example/ltdd/ui/screens/ShopScreen.kt:112-120 | every entry is keyed by its own title |
| Activities.AssociateKeys | app/src/main/java/com/example/ltdd/ui/screens/ShopScreen.kt:112-120 | a title is a key exactly when some server row has it |
| Activities.AssociateLast | app/src/main/java/com/example/ltdd/ui/screens/ShopScreen.kt:112-120 | a title's entry comes from the last row with that title |
| Activities.LoadedSpec | app/src/main/java/com/example/ltdd/ui/screens/ShopScreen.kt:102-128 | the loaded list follows the master list; an activity is the server's last row for its title, or not done with the default text |
| Activities.DoneCount | app/src/main/java/com/example/ltdd/ui/screens/ShopScreen.kt:95-99 | the done count never exceeds the number of activities |
| Activities.DoneCountUpdate | app/src/main/java/com/example/ltdd/ui/screens/ShopScreen.kt:141-169 | replacing one activity changes the done count by exactly its own change |
| Activities.DoneButton | app/src/main/java/com/example/ltdd/ui/screens/ShopScreen.kt:244-248 | the button (drawn at lines 291-298) exists exactly for an activity not done, and sends that activity with the flag set and the text "Đã hoàn thành" |
| Activities.RevertAfterDone | app/src/main/java/com/example/ltdd/ui/screens/ShopScreen.kt:141-169 | a failed update reverts the done flag, but restores the activity exactly only when its text was the default |
| Activities.ProgressCounterSpec | app/src/main/java/com/example/ltdd/ui/screens/ShopScreen.kt:267 | the counter shows the done count and the total, each padded to width two and no further |
| Activities.ShopViewModel.constructor | app/src/main/java/com/example/ltdd/ui/screens/ShopScreen.kt:84-93 | no activities, 0 % completion, day 1 |
| Activities.ShopViewModel.ResetToDefaults | app/src/main/java/com/example/ltdd/ui/screens/ShopScreen.kt:131-137 | the default list, 0 % and day 1 |
| Activities.ShopViewModel.LoadData | app/src/main/java/com/example/ltdd/ui/screens/ShopScreen.kt:102-138 | when all three calls succeed, the loaded list, the completion and a day index of at least 1; after any failure, the defaults |
| Activities.ShopViewModel.DayLabel | app/src/main/java/com/example/ltdd/ui/screens/ShopScreen.kt:265 | in a valid state (a day index of at least 1) the heading is "Thai giáo ngày thứ " followed by the day index in plain digits, with no sign and no leading zero |
| Activities.ShopViewModel.BeginUpdate | app/src/main/java/com/example/ltdd/ui/screens/ShopScreen.kt:142-147 | the activity is replaced at once and the done count moves by its own change |
| Activities.ShopViewModel.CompleteUpdate | app/src/main/java/com/example/ltdd/ui/screens/ShopScreen.kt:149-169 | success stores the completion; failure reverts the activity's flag |
| Activities.PressDone | app/src/main/java/com/example/ltdd/ui/screens/ShopScreen.kt:244-248 | pressing done on an open activity adds one to the done count when the save succeeds, and leaves it when the save fails |
| Vaccinations.ReplaceByIdSpec | app/src/main/java/com/example/ltdd/ui/screens/MedicalRecordScreen.kt:68-90 | every shot with the id becomes the replacement, the others stay |
| Vaccinations.CheckboxChange | app/src/main/java/com/example/ltdd/ui/screens/MedicalRecordScreen.kt:229-231 | only the injected flag changes, to the checkbox value |
| Vaccinations.ToggleThenRevert | app/src/main/java/com/example/ltdd/ui/screens/MedicalRecordScreen.kt:68-90 | a toggle followed by a failed update gives back the original list |
| Vaccinations.MedicalRecordViewModel.constructor | app/src/main/java/com/example/ltdd/ui/screens/MedicalRecordScreen.kt:36-43 | loading, no shots, no error |
| Vaccinations.MedicalRecordViewModel.BeginLoad | app/src/main/java/com/example/ltdd/ui/screens/MedicalRecordScreen.kt:46-54 | a load starts exactly when the user id is not blank; otherwise the no-user error |
| Vaccinations.MedicalRecordViewModel.CompleteLoad | app/src/main/java/com/example/ltdd/ui/screens/MedicalRecordScreen.kt:56-65 | success stores the shots; failure the load error; loading ends |
| Vaccinations.MedicalRecordViewModel.BeginUpdate | app/src/main/java/com/example/ltdd/ui/screens/MedicalRecordScreen.kt:68-73 | the shot is replaced at once |
| Vaccinations.MedicalRecordViewModel.CompleteUpdate | app/src/main/java/com/example/ltdd/ui/screens/MedicalRecordScreen.kt:75-89 | a failure puts back the opposite flag; success keeps the list |
| Vaccinations.ShowContent | app/src/main/java/com/example/ltdd/ui/screens/MedicalRecordScreen.kt:152-171 | spinner while loading, else the error when there is one, else the list |
| Vaccinations.LoadWithoutUser | app/src/main/java/com/example/ltdd/ui/screens/MedicalRecordScreen.kt:46-54 | a blank user shows the no-user error |
| Vaccinations.FailedLoad | app/src/main/java/com/example/ltdd/ui/screens/MedicalRecordScreen.kt:46-65 | a failed load keeps the list and shows the failure's message |
| Vaccinations.CardLines | app/src/main/java/com/example/ltdd/ui/screens/MedicalRecordScreen.kt:195-235 | three lines, or four when the notes are not blank, the name first |
| Pregnancy.ShapeOnly | app/src/main/java/com/example/ltdd/ui/HomeScreen.kt:383 | the due-date check is a digit-shape check: it accepts month 13, rejects an unpadded date |
| Pregnancy.Validate | app/src/main/java/com/example/ltdd/ui/HomeScreen.kt:374-385 | empty exactly when every input is valid; otherwise the first failing check's message, in the source's order: week, length, weight, then the trimmed due date |
| Pregnancy.MissingCharNoMatch | app/src/main/java/com/example/ltdd/ui/HomeScreen.kt:332-353 | a case-insensitive `contains` fails when a non-letter of the needle is missing |
| Pregnancy.StartsWithNoCase | app/src/main/java/com/example/ltdd/ui/HomeScreen.kt:332-353 | a case-insensitive prefix is a case-insensitive `contains` |
| Pregnancy.HighlightsWeekMessage | app/src/main/java/com/example/ltdd/ui/HomeScreen.kt:332-353 | the week message highlights only the week field |
| Pregnancy.HighlightsLengthMessage | app/src/main/java/com/example/ltdd/ui/HomeScreen.kt:332-353 | the length message highlights only the length field |
| Pregnancy.HighlightsWeightMessage | app/src/main/java/com/example/ltdd/ui/HomeScreen.kt:332-353 | the weight message highlights only the weight field |
| Pregnancy.HighlightsDueDateMessage | app/src/main/java/com/example/ltdd/ui/HomeScreen.kt:332-353 | the due-date message highlights only the due-date field |
| Pregnancy.DueDateLabel | app/src/main/java/com/example/ltdd/ui/HomeScreen.kt:353 | the due-date message contains the due-date keyword |
| Pregnancy.HighlightsUpdateFailed | app/src/main/java/com/example/ltdd/ui/HomeScreen.kt:332-353 | the update-failed message highlights no field |
| Pregnancy.UpdateSucceededSpec | app/src/main/java/com/example/ltdd/ui/HomeScreen.kt:467-478 | success needs a 2xx answer with a body; a body starting with "success" in any case succeeds, and so does "unsuccessful", since the test is a substring search |
| Pregnancy.PregnancyHome.constructor | app/src/main/java/com/example/ltdd/ui/HomeScreen.kt:45-50 | the default week, length, weight and due date; no form |
| Pregnancy.PregnancyHome.ApplyLoaded | app/src/main/java/com/example/ltdd/ui/HomeScreen.kt:429-436 | a loaded record replaces the four values, with defaults for missing fields; none keeps them |
| Pregnancy.PregnancyHome.OpenForm | app/src/main/java/com/example/ltdd/ui/HomeScreen.kt:77 | the form opens with empty inputs and no error |
| Pregnancy.PregnancyHome.Dismiss | app/src/main/java/com/example/ltdd/ui/HomeScreen.kt:141 | the form closes |
| Pregnancy.PregnancyForm.constructor | app/src/main/java/com/example/ltdd/ui/HomeScreen.kt:293-297 | empty inputs and no error |
| Pregnancy.PregnancyForm.Submit | app/src/main/java/com/example/ltdd/ui/HomeScreen.kt:372-390 | the error is Validate's message, and a request with the parsed values is sent exactly when it is empty |
| Pregnancy.PregnancyForm.CompleteUpdate | app/src/main/java/com/example/ltdd/ui/HomeScreen.kt:387-402 | success hands the sent values to the home screen; failure shows the update-failed message |
| Grid.TruncDiv | app/src/main/java/com/example/ltdd/ui/screens/CareScreen.kt:255-257 | Kotlin's `Int / Int`: the remainder takes the dividend's sign and is smaller than the divisor in size |
| Grid.Rows | app/src/main/java/com/example/ltdd/ui/screens/CareScreen.kt:259 | the fewest rows that hold every item |
| Grid.RowHeight | app/src/main/java/com/example/ltdd/ui/screens/CareScreen.kt:260 | the tallest item's height, 0 for none |
| Grid.EmptyGridHeight | app/src/main/java/com/example/ltdd/ui/screens/CareScreen.kt:261 | an empty grid's height is minus the spacing |
| Grid.Place | app/src/main/java/com/example/ltdd/ui/screens/CareScreen.kt:263-273 | item i goes to column i mod columns and row i div columns |
| Grid.RightEdgeInside | app/src/main/java/com/example/ltdd/ui/screens/CareScreen.kt:255-273 | every item's right edge stays inside the width |
| Grid.BottomEdgeInside | app/src/main/java/com/example/ltdd/ui/screens/CareScreen.kt:259-273 | every item's bottom edge stays inside the total height |
| Grid.NoOverlap | app/src/main/java/com/example/ltdd/ui/screens/CareScreen.kt:263-273 | two different items never overlap |
| ChildInfo.ScreenFor | app/src/main/java/com/example/ltdd/ui/screens/ChildInfoScreen.kt:63-71 | the missing-user message exactly when there is no user |
| ChildInfo.ChildInfoForm.constructor | app/src/main/java/com/example/ltdd/ui/screens/ChildInfoScreen.kt:73-79 | empty fields, not loading, no error |
| ChildInfo.ChildInfoForm.EditWeek | app/src/main/java/com/example/ltdd/ui/screens/ChildInfoScreen.kt:107 | the week field accepts at most two digits and ignores other edits |
| ChildInfo.ChildInfoForm.Submit | app/src/main/java/com/example/ltdd/ui/screens/ChildInfoScreen.kt:152-163 | a blank field gives the fill-in message, a week outside 1..40 the week message, else loading and the request |
| ChildInfo.ChildInfoForm.CompleteSubmit | app/src/main/java/com/example/ltdd/ui/screens/ChildInfoScreen.kt:165-184 | navigates back exactly on a 2xx answer and clears the fields; else the server or connection error |
| ChildInfo.WeekRejectedIff | app/src/main/java/com/example/ltdd/ui/screens/ChildInfoScreen.kt:158 | a one- or two-digit week is rejected exactly when it is 0 or above 40 |
| Visits.CardLines | app/src/main/java/com/example/ltdd/ui/screens/SoKhamThaiScreen.kt:184-190 | seven lines, the last with the notes or the no-notes text |
| Visits.VisitBook.constructor | app/src/main/java/com/example/ltdd/ui/screens/SoKhamThaiScreen.kt:43-44 | empty fields, not editing, no form, no visits |
| Visits.VisitBook.ClearForm | app/src/main/java/com/example/ltdd/ui/screens/SoKhamThaiScreen.kt:74-78 | fields cleared, not editing, no edit id, form hidden |
| Visits.VisitBook.OpenAddForm | app/src/main/java/com/example/ltdd/ui/screens/SoKhamThaiScreen.kt:170 | a cleared form is shown for a new visit |
| Visits.VisitBook.StartEditAsWritten | app/src/main/java/com/example/ltdd/ui/screens/SoKhamThaiScreen.kt:192-201 | the form is filled from the visit and its id kept, but the editing flag is not set |
| Visits.VisitBook.StartEdit | app/src/main/java/com/example/ltdd/ui/screens/SoKhamThaiScreen.kt:192-201 | as above, and the editing flag is set |
| Visits.VisitBook.Submit | app/src/main/java/com/example/ltdd/ui/screens/SoKhamThaiScreen.kt:233-240 | nothing is sent exactly when a required field is blank (with its toast); editing sends an update by id, otherwise an add |
| Visits.VisitBook.CompleteSend | app/src/main/java/com/example/ltdd/ui/screens/SoKhamThaiScreen.kt:94-111 | the server's message or the failure toast; on success the form is cleared and the list re-fetched |
| Visits.VisitBook.CompleteDelete | app/src/main/java/com/example/ltdd/ui/screens/SoKhamThaiScreen.kt:121-137 | the server's message or the failure toast; a re-fetch exactly on success |
| Visits.VisitBook.CompleteFetch | app/src/main/java/com/example/ltdd/ui/screens/SoKhamThaiScreen.kt:52-71 | success replaces the list; failure keeps it and toasts by failure kind |
| Visits.EditThenSubmitAsWritten | app/src/main/java/com/example/ltdd/ui/screens/SoKhamThaiScreen.kt:192-201 | editing a visit and saving it sends an add, duplicating it |
| Visits.EditThenSubmit | app/src/main/java/com/example/ltdd/ui/screens/SoKhamThaiScreen.kt:192-201 | with the flag set, the same steps send an update of that visit |
| Register.RegisterForm.constructor | app/src/main/java/com/example/ltdd/ui/screens/RegisterScreen.kt:50-56 | empty fields, no message, not loading |
| Register.RegisterForm.Submit | app/src/main/java/com/example/ltdd/ui/screens/RegisterScreen.kt:158-173 | a request exactly when the four required fields are filled and the passwords match; otherwise the matching message |
| Register.RegisterForm.CompleteRegister | app/src/main/java/com/example/ltdd/ui/screens/RegisterScreen.kt:174-193 | registered exactly on a 2xx answer whose body says success; the message for each other case |
| Register.RegisterThenRefused | app/src/main/java/com/example/ltdd/ui/screens/RegisterScreen.kt:204-215 | after any answer but a successful body the message is visible, and the button is enabled again |
| Login.FailureMessage | app/src/main/java/com/example/ltdd/ui/screens/LoginScreen.kt:122-143 | an HTTP failure's message has its prefix and then the error body, or else a status code that reads back as the failure's code; an I/O failure has the fixed network text; any other failure has its prefix and then its own message |
| Login.FailureMessageNonEmpty | app/src/main/java/com/example/ltdd/ui/screens/LoginScreen.kt:122-143 | a failed login always shows a message |
| Login.LoginForm.constructor | app/src/main/java/com/example/ltdd/ui/screens/LoginScreen.kt:32-35 | empty fields, no message, not loading |
| Login.LoginForm.Submit | app/src/main/java/com/example/ltdd/ui/screens/LoginScreen.kt:99-108 | a call starts exactly when both fields are not blank; otherwise the fill-in message |
| Login.LoginForm.CompleteLogin | app/src/main/java/com/example/ltdd/ui/screens/LoginScreen.kt:109-145 | a session exactly when the answer says success with a user id, named by the answer or the default; otherwise the answer's or the failure's message |
| Login.SubmitThenComplete | app/src/main/java/com/example/ltdd/ui/screens/LoginScreen.kt:99-170 | a login that starts shows no message on success and a message on failure |
| Growth.GrowthViewModel.constructor | app/src/main/java/com/example/ltdd/ui/screens/GrowthScreen.kt:50-56 | no data, not loading, no error |
| Growth.GrowthViewModel.BeginReload | app/src/main/java/com/example/ltdd/ui/screens/GrowthScreen.kt:58-60 | loading with the error cleared |
| Growth.GrowthViewModel.CompleteReload | app/src/main/java/com/example/ltdd/ui/screens/GrowthScreen.kt:61-67 | success stores the data; failure the load error; loading ends |
| Growth.FindWeek | app/src/main/java/com/example/ltdd/ui/screens/GrowthScreen.kt:145 | a found record is in the data and is for the week |
| Growth.FindWeekSpec | app/src/main/java/com/example/ltdd/ui/screens/GrowthScreen.kt:145 | null exactly when no record is for the week, else the first one |
| Growth.WeekTextMatches | app/src/main/java/com/example/ltdd/ui/screens/GrowthScreen.kt:145 | a record whose week text is the number, or its zero-padded form, matches |
| Growth.PaddedWeekNeverMatches | app/src/main/java/com/example/ltdd/ui/screens/GrowthScreen.kt:145 | a week text with a leading space never matches |
| Growth.ImageUrl | app/src/main/java/com/example/ltdd/ui/screens/GrowthScreen.kt:189-190 | no image gives an empty URL; the URL always ends with the stored path, is that path exactly when it starts with "http", and is otherwise the base URL followed by the path |
| Growth.ImageShownIff | app/src/main/java/com/example/ltdd/ui/screens/GrowthScreen.kt:189-204 | an image is shown exactly when the record has one; a relative path yields a URL with a leading space |
| Growth.DetailCard | app/src/main/java/com/example/ltdd/ui/screens/GrowthScreen.kt:188-223 | the picture exactly when there is an image, and three rows with the placeholder for missing values |
| Growth.Render | app/src/main/java/com/example/ltdd/ui/screens/GrowthScreen.kt:136-156 | spinner while loading, the error when non-empty, else the selected week's card or the no-data text |
| Growth.IconForWeek | app/src/main/java/com/example/ltdd/ui/screens/GrowthScreen.kt:244-248 | the pineapple icon exactly for weeks outside 1..9 |
| Growth.IconsDistinct | app/src/main/java/com/example/ltdd/ui/screens/GrowthScreen.kt:244-248 | a distinct icon for each of weeks 1..9 |
| Growth.GrowthScreenState.constructor | app/src/main/java/com/example/ltdd/ui/screens/GrowthScreen.kt:93 | week 1 is selected |
| Growth.GrowthScreenState.ScrollIndex | app/src/main/java/com/example/ltdd/ui/screens/GrowthScreen.kt:116 | the row scrolls to the selected week's index |
| Growth.GrowthScreenState.ClickWeek | app/src/main/java/com/example/ltdd/ui/screens/GrowthScreen.kt:163-185 | the clicked week becomes the only selected week |
| Chat.ToMessages | app/src/main/java/com/example/ltdd/ui/screens/ChatScreen.kt:100-105 | one message per record, with its text, sender and time |
| Chat.ChatViewModel.constructor | app/src/main/java/com/example/ltdd/ui/screens/ChatScreen.kt:87-92 | no messages and no error |
| Chat.ChatViewModel.BeginLoad | app/src/main/java/com/example/ltdd/ui/screens/ChatScreen.kt:94-97 | the error is cleared |
| Chat.ChatViewModel.CompleteLoad | app/src/main/java/com/example/ltdd/ui/screens/ChatScreen.kt:98-113 | a 2xx answer with a body replaces the messages; each other case sets its error |
| Chat.IsUserIff | app/src/main/java/com/example/ltdd/ui/screens/ChatScreen.kt:187 | a message is the user's exactly when its sender is u or U |
| Chat.SentMessagesAreUsers | app/src/main/java/com/example/ltdd/ui/screens/ChatScreen.kt:117-135 | a message the user sends is drawn as the user's |
| Chat.ChatScreenState.constructor | app/src/main/java/com/example/ltdd/ui/screens/ChatScreen.kt:146 | the input is empty |
| Chat.ChatScreenState.PressSend | app/src/main/java/com/example/ltdd/ui/screens/ChatScreen.kt:246-261 | a send exactly when the input is not blank, carrying the trimmed text |
| Chat.ChatScreenState.CompleteSend | app/src/main/java/com/example/ltdd/ui/screens/ChatScreen.kt:246-261 | success clears the input and reloads; failure keeps it and toasts |
| Vitamins.FetchResult | app/src/main/java/com/example/ltdd/viewmodel/VitaminViewModel.kt:29-40 | Success with the list exactly when the call returned, else Error with the prefixed message |
| Vitamins.VitaminViewModel.constructor | app/src/main/java/com/example/ltdd/viewmodel/VitaminViewModel.kt:20-27 | creating the view model starts a fetch |
| Vitamins.VitaminViewModel.FetchVitamins | app/src/main/java/com/example/ltdd/viewmodel/VitaminViewModel.kt:29-30 | the state becomes Loading |
| Vitamins.VitaminViewModel.CompleteFetch | app/src/main/java/com/example/ltdd/viewmodel/VitaminViewModel.kt:31-40 | the state becomes FetchResult of the call |
| Vitamins.RefetchForgetsPrevious | app/src/main/java/com/example/ltdd/viewmodel/VitaminViewModel.kt:29-40 | a re-fetch's result replaces whatever was shown |
| Products.ProductScreen.constructor | app/src/main/java/com/example/ltdd/ui/screens/SanphamScreen.kt:36-38 | no products, loading, no error |
| Products.ProductScreen.CompleteFetch | app/src/main/java/com/example/ltdd/ui/screens/SanphamScreen.kt:42-52 | success stores the products; failure keeps them with the load error; loading ends |
| Products.ProductScreen.Retry | app/src/main/java/com/example/ltdd/ui/screens/SanphamScreen.kt:101-106 | retry empties the list and loads again |
| Products.ImageUrl | app/src/main/java/com/example/ltdd/ui/screens/SanphamScreen.kt:143-147 | none gives an empty URL; the URL always ends with the stored value, is that value exactly when it starts with http:// or https://, and is otherwise the host's base URL followed by it |
| Products.ImageShownIff | app/src/main/java/com/example/ltdd/ui/screens/SanphamScreen.kt:143-190 | an image is shown exactly when the product has one, always as an absolute URL |
| Products.PostedLine | app/src/main/java/com/example/ltdd/ui/screens/SanphamScreen.kt:219-227 | the posted line exactly when there is a date, with the prefix and the date part before the space |
| Products.ProductCard | app/src/main/java/com/example/ltdd/ui/screens/SanphamScreen.kt:142-230 | the picture or the no-image text, the name and description, and the posted line |
| Products.Render | app/src/main/java/com/example/ltdd/ui/screens/SanphamScreen.kt:82-136 | spinner while loading, the error with retry, the empty text, or one card per product |
| Products.RetryThenFail | app/src/main/java/com/example/ltdd/ui/screens/SanphamScreen.kt:101-106 | a retry that fails again leaves an empty list behind the error |
| CrisisWeeks.CrisisWeekScreen.constructor | app/src/main/java/com/example/ltdd/ui/screens/CrisisWeekScreen.kt:29-31 | no weeks, loading, no error |
| CrisisWeeks.CrisisWeekScreen.CompleteFetch | app/src/main/java/com/example/ltdd/ui/screens/CrisisWeekScreen.kt:35-46 | success stores the weeks; failure keeps them with the load error |
| CrisisWeeks.CrisisWeekScreen.Retry | app/src/main/java/com/example/ltdd/ui/screens/CrisisWeekScreen.kt:92-97 | retry empties the list and loads again |
| CrisisWeeks.TitleLine | app/src/main/java/com/example/ltdd/ui/screens/CrisisWeekScreen.kt:135-153 | a title line exactly when there is a week or a title; without a week, the title itself; with a week, "Tuần N: " followed directly by the title or "Không có tiêu đề" (the prefix, plus a length equal to the prefix plus that text, plus the suffix from TitleLineKeepsTitle) |
| CrisisWeeks.TitleLineKeepsTitle | app/src/main/java/com/example/ltdd/ui/screens/CrisisWeekScreen.kt:135-153 | the line ends with the title, or the no-title text when a week has none |
| CrisisWeeks.UpdatedLine | app/src/main/java/com/example/ltdd/ui/screens/CrisisWeekScreen.kt:164-171 | the updated line exactly when there is a date, with the prefix and the date part |
| CrisisWeeks.Render | app/src/main/java/com/example/ltdd/ui/screens/CrisisWeekScreen.kt:77-120 | spinner, error with retry, empty text or one card per week |
| CrisisWeeks.RetryThenLoad | app/src/main/java/com/example/ltdd/ui/screens/CrisisWeekScreen.kt:92-109 | a retry followed by a load shows the new weeks or the empty text |
| FoodPosts.FoodPostScreen.constructor | app/src/main/java/com/example/ltdd/ui/screens/DauAnThaiKyScreen.kt:25-26 | loading with no posts |
| FoodPosts.FoodPostScreen.CompleteLoad | app/src/main/java/com/example/ltdd/ui/screens/DauAnThaiKyScreen.kt:28-36 | success stores the posts; failure keeps them; loading ends |
| FoodPosts.ImageUrl | app/src/main/java/com/example/ltdd/ui/screens/DauAnThaiKyScreen.kt:76-82 | none gives an empty URL; the URL always ends with the stored value, is that value exactly when it is empty or starts with "http", and is otherwise the base URL followed by it |
| FoodPosts.ImageShownIff | app/src/main/java/com/example/ltdd/ui/screens/DauAnThaiKyScreen.kt:76-95 | an image is shown exactly for a non-empty path; a relative one yields a URL with two leading spaces |
| FoodPosts.Line | app/src/main/java/com/example/ltdd/ui/screens/DauAnThaiKyScreen.kt:107-125 | a labelled line exactly when the value is present |
| FoodPosts.FoodPostCard | app/src/main/java/com/example/ltdd/ui/screens/DauAnThaiKyScreen.kt:74-130 | the picture and each labelled line exactly when present |
| FoodPosts.Render | app/src/main/java/com/example/ltdd/ui/screens/DauAnThaiKyScreen.kt:46-67 | spinner while loading, the empty text, or one card per post |
| FoodPosts.LoadOnEntry | app/src/main/java/com/example/ltdd/ui/screens/DauAnThaiKyScreen.kt:28-67 | a failed load and an empty answer both show the empty text |

## Left out

- Networking: Retrofit, OkHttp and Gson. Each call is replaced by the `Outcome` it ends with, given as a parameter. Request URLs and field names are kept only where a screen builds them itself (image URLs).
- Coroutines and dispatchers: each launch is split into a start and a completion, with nothing running in between. Two saves racing each other on the birth-plan state are not modelled.
- Toasts, `Log` calls and `printStackTrace`. A toast text is returned where a screen computes one.
- `saveLocally` in ShopScreen.kt (SharedPreferences) and the current date sent with activity calls. They are outside the model's state.
- `saveBirthPlan` in BirthPlanViewModel.kt only writes to standard output, so it is not modelled.
- Compose layout, colours, navigation callbacks and `LaunchedEffect` wiring. A navigation callback becomes a returned flag (`registered`, `navigateBack`, a `Session`).
- Plain text-field edits, which just store the typed text. Screens with no logic are not modelled either.
- Floating point: `toDoubleOrNull` is a parameter `parseDouble` of the home form, and the length and weight are Dafny `real`s. The model cannot represent the inputs "NaN" and "Infinity", which `toDoubleOrNull` accepts. Such a value passes the `<= 0` check at HomeScreen.kt:381-382 and is sent.
- The due-date `Regex` is replaced by the explicit predicate `Pregnancy.IsDueDateShape`: four, two and two ASCII digits joined by hyphens.
- Character classes are their ASCII parts. This covers whitespace in `isBlank`/`trim`, digits in `isDigit`, and letters in `ignoreCase`. Vietnamese letters are not case-folded.
- The `Vitamin` record is not part of this model: `Vitamins.VitaminViewModel` is generic in the element type.
- JSON coercion by org.json's `optInt`, `optDouble` and `optString`. `Pregnancy.PregnancyHome.ApplyLoaded` receives the fields already coerced, as `Some(value)`. `None` stands for a field that `opt…` replaces by its default. The coercion itself is not modelled:
  - `optString` turns a JSON null into the text "null" and a number into its digits, so `"due_date": null` shows "null" and not "2025-08-01".
  - `optInt` and `optDouble` accept numeric strings such as "25", so a quoted week is used, not replaced by the default.
- Exception messages, which Kotlin may see as null, are modelled as strings.
- Activities.ShopViewModel.LoadData: the partial state seen while a later call is still pending is not modelled. Only the final state after all three calls is stated.
- Grid.Rows: this is the exact integer ceiling. The source's `ceil(n.toFloat() / columns)` agrees with it for any count of children a screen holds, but float rounding at very large counts is not modelled. Spacing is taken in whole pixels, as after `roundToPx()`.

## Findings

| source | as written | input that shows it | evidently intended | confidence | as-written member | corrected member |
|---|---|---|---|---|---|---|
| app/src/main/java/com/example/ltdd/ui/screens/SoKhamThaiScreen.kt:192-201 | The edit button fills the form and sets `editId` but never sets `isEditing`. The submit at line 239 therefore sends `null` as the id, so saving an edited visit adds a second visit under the "add" title. | Open the edit form of any visit whose six required fields are filled, then press save. | The edit button also sets `isEditing = true`, so that the save calls `updateVisit(editId, …)`. | high; not executed | Visits.EditThenSubmitAsWritten | Visits.EditThenSubmit |
