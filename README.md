# 404NoTReady health and merchant apps: a verified model of the core

The repository has four parts:

- an Express/Mongoose backend for a health-tracking app: registration, login, profile, health metrics, quiz scores and health reports;
- a rule-based merchant assistant component (`AICHATBOT.js`);
- four React Native screens: the health quiz, the health monitor, sign-up and medicine reminders.

This project models them in Dafny and proves what each handler promises.

- **Backend.** The store is a `Database` class.
  - Its users live in a `map` from id to `User`. The report collection is a `seq<Report>`.
  - Each route handler is a method that modifies the database. It is proved against a specification function: the new state, the session and the response, given the old state.
  - The session is a value passed to each handler. Login and logout return the new session.
  - `Backend.Handle` dispatches a request to its handler.
  - The lemmas over `Handle` and over runs of requests state the shared facts:
    - the guard order;
    - the store invariant (unique emails, well-formed users);
    - failure changes nothing;
    - other users' documents are untouched;
    - the score and calorie logs and the report collection only grow.
- **Merchant assistant.** These parts are pure functions over strings:
  - language detection (Chinese characters, then whole-word Malay markers, then English);
  - the keyword chain of `handleAIResponse`;
  - the business report and chart data;
  - the recognition-error lookup.

  The component's state is an `Assistant` class. Its handlers are methods: send, the delayed reply, image upload and clearing the history.
- **Screens.** Each stateful screen is a class whose methods are its handlers:
  - the quiz state machine with its timer tick;
  - the monitor's validation, chart state and profile fetch;
  - the sign-up form's error dictionary and request;
  - the medicine reminder list.

JavaScript's own semantics are written out in module `Js`: truthiness, `Number()`, `parseInt`, `trim`, `toLowerCase` and `includes`.

In two places the assistant does not simply append "question, then answer", as its send handler reads. The model follows the code:

- the delayed reply replaces the message list with the list captured when the message was sent;
- a send that switches the language first resets the list to the greeting in the new language, through the effect that watches the language.

Both are stated below, and the first is listed under "## Findings".

## Model

| member | source | states |
|---|---|---|
| UserModel.Hash | backend/routes/authRoutes.js:43 | the stored digest verifies exactly the password it was made from, at cost 12 |
| UserModel.CreateUser | backend/models/User.js:3-35 | a user is created exactly when email, username, gender and age are present. The new user holds those fields and the given digest. Both weekly arrays hold seven zeros; scores, calorie records and the `latest*` fields start empty |
| UserModel.ProfileExcludesPassword | backend/routes/authRoutes.js:17 | the profile view does not depend on the password at all, and it keeps id, email and weekly data |
| UserModel.NewGameScore | backend/models/User.js:9-14 | a score entry is stamped with the given date; a missing score defaults to 0 |
| UserModel.NewCalorieRecord | backend/models/User.js:28-34 | a calorie record is stamped with the time. `burned` and `consumed` are `Number(x)`, or 0 when that is NaN |
| Store.EmailOwner | backend/models/User.js:4 | with unique emails, lookup by email finds a user exactly when one has that email, and the found user has it |
| Store.Database.FindOne | backend/routes/authRoutes.js:37 | the loop over the collection returns exactly the owner of the email |
| Store.Database.constructor | backend/models/User.js:37 | an empty store, which satisfies the store invariant |
| AuthRoutes.Lookup | backend/routes/authRoutes.js:37 | a found id belongs to a user with that email; no result for a given email means no user has it |
| AuthRoutes.ProfileResult | backend/routes/authRoutes.js:12-26 | 401 without a session, 404 for a vanished id, otherwise 200 with the password-free profile; nothing changes |
| AuthRoutes.RegisterResult | backend/routes/authRoutes.js:33-59 | a taken email gives 400. Status 201 occurs exactly when the email is free, the password is present and the required fields are there; the new user stores the hash, which verifies the password. Any other outcome changes nothing |
| AuthRoutes.LoginResult | backend/routes/authRoutes.js:66-87 | an unknown email gives 404; a known email without a password gives 500 (bcrypt throws); a known email with a wrong password gives 400 `Invalid credentials`. Status 200 occurs exactly when the user exists and the password verifies; the session is then bound to that user and the body is only a message. Otherwise the session is unchanged; the store never changes |
| AuthRoutes.LogoutResult | backend/routes/authRoutes.js:94-101 | a failed destroy gives 500 and keeps the session; otherwise the session is cleared with 200 |
| AuthRoutes.GetProfile | backend/routes/authRoutes.js:12-26 | the handler answers as `ProfileResult` specifies |
| AuthRoutes.PostRegister | backend/routes/authRoutes.js:33-59 | the handler's new store and response are those of `RegisterResult`, and the store invariant is kept |
| AuthRoutes.PostLogin | backend/routes/authRoutes.js:66-87 | the handler's response and session are those of `LoginResult` |
| AuthRoutes.PostLogout | backend/routes/authRoutes.js:94-101 | 500 with the session kept when destroy fails, otherwise 200 with no session |
| HealthRoutes.ComputedBmi | backend/routes/healthRoutes.js:23-27 | the BMI is computed exactly when height and weight are both truthy, from those two; otherwise it is null |
| HealthRoutes.Bmi | backend/routes/healthRoutes.js:11-56 | 401 without a session, 404 for a session user missing from the store, 200 exactly for an existing user. On 200 all four `latest*` fields are overwritten (falsy inputs become null), nothing else changes, and the BMI, height, weight and age are echoed; any failure changes nothing |
| HealthRoutes.Week | backend/routes/healthRoutes.js:63-124 | 401 without a session; a body that is not a 7-element array gives 400; a 7-array for a session user missing from the store gives 404. Status 200 occurs exactly for a session user, a 7-array and an existing user; it replaces the whole weekly array, echoes it and changes nothing else. Failures change nothing |
| HealthRoutes.Cals | backend/routes/healthRoutes.js:131-157 | 401 without a session, 404 for a session user missing from the store, 200 exactly for an existing user. On 200 exactly one coerced record is appended after the earlier ones, and the whole list is echoed |
| HealthRoutes.ShapeCheckPrecedesLookup | backend/routes/healthRoutes.js:70-74 | a malformed weekly array gives 400 whatever the store holds, so the store is not consulted |
| HealthRoutes.PostBmi | backend/routes/healthRoutes.js:11-56 | the handler's new store and response are those of `Bmi`, and the store invariant is kept |
| HealthRoutes.PostHeartRate | backend/routes/healthRoutes.js:63-90 | the handler's new store and response are those of `Week` for heart rate |
| HealthRoutes.PostSteps | backend/routes/healthRoutes.js:97-124 | the handler's new store and response are those of `Week` for steps |
| HealthRoutes.PostCals | backend/routes/healthRoutes.js:131-157 | the handler's new store and response are those of `Cals` |
| GameRoutes.ScoreResult | backend/routes/gameRoutes.js:11-34 | 401 without a session, 404 for a vanished user, 200 otherwise. On 200 exactly one `{date, score}` entry is appended after the earlier ones; failures change nothing |
| GameRoutes.ScoresResult | backend/routes/gameRoutes.js:41-51 | needs no session: 404 for an unknown id, otherwise the stored score list as is |
| GameRoutes.ScoreThenScores | backend/routes/gameRoutes.js:27-28 | after a successful post, listing returns the old scores followed by exactly the new entry |
| GameRoutes.PostScore | backend/routes/gameRoutes.js:11-34 | the handler's new store and response are those of `ScoreResult` |
| GameRoutes.GetScores | backend/routes/gameRoutes.js:41-51 | the handler answers as `ScoresResult` specifies |
| ReportRoutes.OwnedBy | backend/routes/reportRoutes.js:95 | the filter keeps only reports of that user, drawn from the collection |
| ReportRoutes.OwnedByCount | backend/routes/reportRoutes.js:95 | the filter keeps every report of that user, with its multiplicity, and no other |
| ReportRoutes.Insert | backend/routes/reportRoutes.js:96 | inserting into a newest-first list keeps it newest-first and adds exactly the one report |
| ReportRoutes.NewestFirst | backend/routes/reportRoutes.js:96 | the sort yields a newest-first permutation of its input |
| ReportRoutes.ReportsOfSpec | backend/routes/reportRoutes.js:95-97 | the listed reports are sorted newest first, and are exactly the user's reports with their multiplicities |
| ReportRoutes.NewestIsFirst | backend/routes/reportRoutes.js:96 | a report strictly newer than all others is listed first |
| ReportRoutes.CreateResult | backend/routes/reportRoutes.js:12-79 | 401 without a session, 404 for a vanished user, 200 otherwise. On 200 exactly one report is appended, carrying the session user, the body's 18 metrics, no AI analysis and both timestamps set to now. Users never change |
| ReportRoutes.AiAnalysisIgnored | backend/routes/reportRoutes.js:20-39 | the body's `aiAnalysis` has no effect on the outcome |
| ReportRoutes.ListResult | backend/routes/reportRoutes.js:86-104 | needs no session: 404 for an unknown id, otherwise 200 with exactly that user's reports, newest first (the meaning `ReportsOfSpec` gives `ReportsOf`) |
| ReportRoutes.CreateThenList | backend/routes/reportRoutes.js:72-97 | after creating a report newer than all stored ones, the user's list grows by one and starts with it |
| ReportRoutes.PostGenerated | backend/routes/reportRoutes.js:12-79 | the handler's new store and response are those of `CreateResult` |
| ReportRoutes.GetReports | backend/routes/reportRoutes.js:86-104 | the handler answers as `ListResult` specifies |
| Backend.Handle | backend/server.js:57-61 | dispatching a request to its router: only registration and the session writes change users, and only report creation changes the report collection |
| Backend.Run | backend/server.js:57-61 | a run of requests, each answered against the state the previous one left, keeps emails unique and users well formed |
| Backend.HandleKeepsValid | backend/models/User.js:4-8 | every request keeps emails unique and users well formed |
| Backend.FailureChangesNothing | backend/server.js:57-61 | a request that does not succeed leaves the store as it was |
| Backend.NoSessionNoWrite | backend/routes/healthRoutes.js:13-15 | every write on the session user's documents is refused with 401 without a session and changes nothing |
| Backend.ReadsChangeNothing | backend/server.js:57-61 | profile, login, logout and both list endpoints leave the store as it was |
| Backend.SessionMovesOnlyAtLoginOrLogout | backend/routes/authRoutes.js:82 | only login and logout change the session |
| Backend.OthersUntouched | backend/server.js:57-61 | a request never changes a document of a user other than the session user |
| Backend.HandleExtends | backend/server.js:57-61 | after any request every user is still there with the same email and password, the score and calorie logs only grow, and the report collection only grows |
| Backend.ExtendsTransitive | backend/server.js:57-61 | growth of the store composes across requests |
| Backend.RunExtends | backend/server.js:57-61 | any run of requests only grows the store |
| Backend.AnonymousRunOnlyRegisters | backend/routes/authRoutes.js:33-59 | without a login, a run stays anonymous and changes no existing user and no report |
| Chatbot.MalayFrom | ai-chatbot/ai-chatbot/src/components/AICHATBOT.js:54-56 | the scan finds a Malay marker exactly when one occurs as a whole word, case-insensitively, at or after the position |
| Chatbot.DetectLanguage | ai-chatbot/ai-chatbot/src/components/AICHATBOT.js:51-59 | Chinese exactly when a U+4E00..U+9FFF character occurs; Malay exactly when none does and a marker word does; English otherwise |
| Chatbot.DetectionIgnoresCase | ai-chatbot/ai-chatbot/src/components/AICHATBOT.js:55 | upper-casing the text does not change the detected language |
| Chatbot.MalayNeedsWholeWord | ai-chatbot/ai-chatbot/src/components/AICHATBOT.js:53-56 | "Boleh bantu?" is Malay, Chinese wins over a Malay word, and "sayang" does not contain the word "saya" |
| Chatbot.GenerateBusinessReport | ai-chatbot/ai-chatbot/src/components/AICHATBOT.js:179-222 | the report carries the heading in the language, the given date and sales, the top products and three recommendations |
| Chatbot.DaysInMonth | ai-chatbot/ai-chatbot/src/components/AICHATBOT.js:274 | the month has 28 to 31 days, and exactly 28 for February of a common year |
| Chatbot.Visualization | ai-chatbot/ai-chatbot/src/components/AICHATBOT.js:224-297 | one data band per label: 24 for today, the 7 day names for the week, the days of the month otherwise; title and dataset label follow the language |
| Chatbot.DrawsMatchLabels | ai-chatbot/ai-chatbot/src/components/AICHATBOT.js:250-283 | any drawn data has as many values as labels; hourly values lie in [50, 800) |
| Chatbot.HourLabelsReadBack | ai-chatbot/ai-chatbot/src/components/AICHATBOT.js:252 | the i-th hourly label reads back as hour i |
| Chatbot.MonthLabelsReadBack | ai-chatbot/ai-chatbot/src/components/AICHATBOT.js:275-276 | the i-th daily label reads back as day i + 1 |
| Chatbot.FirstMatch | ai-chatbot/ai-chatbot/src/components/AICHATBOT.js:305-425 | the chain stops at a group with a keyword in the text, and no earlier group has one |
| Chatbot.ReplyFor | ai-chatbot/ai-chatbot/src/components/AICHATBOT.js:305-425 | a report exactly for the report group, a chart exactly for the three timeframe groups, never the image or help reply. Each timeframe group gets the sales figure and the chart of its own timeframe; each advice group gets the advice of its own topic |
| Chatbot.TodayQuestionGetsHourlyChart | ai-chatbot/ai-chatbot/src/components/AICHATBOT.js:315-322 | a question naming today and no report gets today's sales figure and a chart of 24 hourly labels titled for today |
| Chatbot.ReplyPriority | ai-chatbot/ai-chatbot/src/components/AICHATBOT.js:301-425 | when a group is the earliest whose keyword occurs in the lower-cased input, the reply is that group's, whatever later groups match |
| Chatbot.ReportExactlyOnReportKeyword | ai-chatbot/ai-chatbot/src/components/AICHATBOT.js:305-313 | the reply is a report exactly when a report keyword occurs, titled in the language |
| Chatbot.FallbackReplies | ai-chatbot/ai-chatbot/src/components/AICHATBOT.js:427-466 | the image analysis exactly when no keyword occurs and an image is set; the help text exactly when no keyword occurs and there is no image |
| Chatbot.ChartRepliesMatchLabels | ai-chatbot/ai-chatbot/src/components/AICHATBOT.js:315-347 | every chart reply has one band per label and the dataset label of the language |
| Chatbot.RecognitionErrorSpec | ai-chatbot/ai-chatbot/src/components/AICHATBOT.js:164-177 | a known code gives its message (the later `not-allowed` entry wins); exactly the unknown codes get the `Error occurred (` fallback, which embeds the code (prototype names are left out, see below) |
| ChatAssistant.Assistant.constructor | ai-chatbot/ai-chatbot/src/components/AICHATBOT.js:62-87 | the English greeting, empty input, no image, the saved history and the mocked sales |
| ChatAssistant.Assistant.SetInput | ai-chatbot/ai-chatbot/src/components/AICHATBOT.js:760 | the input is replaced, nothing else changes |
| ChatAssistant.Assistant.HandleSend | ai-chatbot/ai-chatbot/src/components/AICHATBOT.js:471-486 | blank input changes nothing. Otherwise the language is detected, the input cleared and the message appended, or, when the language changed, the list becomes the greeting in the new language. The pending reply holds the text, the language and the list as they were |
| ChatAssistant.Assistant.ReplyArrives | ai-chatbot/ai-chatbot/src/components/AICHATBOT.js:487-507 | the list becomes the captured one plus the question and its answer; one history entry is added; an image present at send time is cleared |
| ChatAssistant.Assistant.ReplyArrivesAppended | ai-chatbot/ai-chatbot/src/components/AICHATBOT.js:487-507 | corrected reply: the answer is appended to the current list |
| ChatAssistant.Assistant.HandleUploadImage | ai-chatbot/ai-chatbot/src/components/AICHATBOT.js:591-609 | over 5 MB is refused before the type is examined; a non-image type is refused; refusals keep the image and set the error in the current language; otherwise the image is set and the error cleared |
| ChatAssistant.Assistant.ClearHistory | ai-chatbot/ai-chatbot/src/components/AICHATBOT.js:620-629 | the prompt is in the current language; the history empties exactly on confirmation |
| ChatAssistant.OverlappingRepliesLoseOne | ai-chatbot/ai-chatbot/src/components/AICHATBOT.js:487-491 | two English messages sent within the delay: both reach the history, but the first answer is no longer shown |
| ChatAssistant.OverlappingRepliesKept | ai-chatbot/ai-chatbot/src/components/AICHATBOT.js:487-491 | with appended replies, both questions and both answers are shown |
| ChatAssistant.FirstMessageInAnotherLanguage | ai-chatbot/ai-chatbot/src/components/AICHATBOT.js:79-87 | a first message in Malay or Chinese shows only the new greeting until the reply, which brings back the English greeting with the question and answer |
| GameScreen.Swap | frontend/screens/Game.js:52 | exchanges two positions and keeps all others |
| GameScreen.Shuffle | frontend/screens/Game.js:52 | a sequence of swaps keeps the length (its permutation property is `ShuffleKeepsElements`) |
| GameScreen.ShuffleKeepsElements | frontend/screens/Game.js:52 | any sequence of swaps is a permutation |
| GameScreen.FormatQuestion | frontend/screens/Game.js:47-54 | the options are a permutation of the incorrect answers plus the correct one, the answer is among them, and the question and answer are kept |
| GameScreen.FormatQuestions | frontend/screens/Game.js:47-55 | every fetched question is formatted, in order |
| GameScreen.PushScore | frontend/screens/Game.js:75 | the new entry goes first, the older ones follow, at most 5 are kept |
| GameScreen.PushAll | frontend/screens/Game.js:75 | after several saves the history holds as many entries as were saved, capped at 5 |
| GameScreen.PushAllNewestFirst | frontend/screens/Game.js:75 | after several saves the k-th entry is the k-th newest, for every k below 5 |
| GameScreen.Quiz.constructor | frontend/screens/Game.js:18-25 | question 0, score 0, 300 seconds, no result, loading, empty history |
| GameScreen.Quiz.QuestionsLoaded | frontend/screens/Game.js:46-56 | the questions become the formatted ones and loading ends, nothing else changes |
| GameScreen.Quiz.HandleAnswer | frontend/screens/Game.js:61-76 | the score grows by 1 exactly on the right answer. The index advances while questions remain. On the last question the result is shown and the score saved is the one before this answer |
| GameScreen.Quiz.HandleAnswerCounted | frontend/screens/Game.js:61-76 | corrected: the same, with the saved score including the last answer |
| GameScreen.Quiz.Restart | frontend/screens/Game.js:78-84 | index 0, score 0, 300 seconds, no result, loading again; questions and history kept |
| GameScreen.Quiz.Tick | frontend/screens/Game.js:31-40 | the time decreases by one only while it is positive and no result is shown; reaching 0 shows the result |
| GameScreen.LastAnswerNotCounted | frontend/screens/Game.js:62-74 | one right answer to a one-question quiz shows score 1 but saves 0 |
| MonitorScreen.PositiveOrZero | frontend/screens/Monitor.js:86-87 | `parseInt(x) || 0` is positive exactly when parseInt reads a positive number, and is then that number |
| MonitorScreen.ValidatedInputsSpec | frontend/screens/Monitor.js:86-90 | the week is accepted exactly when every entry parses to a positive integer, and the values are those integers in order |
| MonitorScreen.ValidatedCaloriesSpec | frontend/screens/Monitor.js:153-158 | calories are accepted exactly when both entries parse to positive integers, and the values are those integers |
| MonitorScreen.AfterFetch | frontend/screens/Monitor.js:62-76 | the heart and step charts are overwritten only by truthy fields; the calorie chart takes the last record with missing values as 0, and is unchanged without records |
| MonitorScreen.SubmittedWeekIsShown | frontend/screens/Monitor.js:91-97 | a validated week is accepted by the backend and the refetched profile draws exactly it |
| MonitorScreen.SubmittedCaloriesAreShown | frontend/screens/Monitor.js:159-164 | validated calories are stored and the refetched profile draws exactly them |
| MonitorScreen.Monitor.constructor | frontend/screens/Monitor.js:26-41 | zero charts, empty inputs, closed modals |
| MonitorScreen.Monitor.EditInput | frontend/screens/Monitor.js:249-251 | one entry of one form is replaced; the charts are unchanged |
| MonitorScreen.Monitor.StartFetch | frontend/screens/Monitor.js:50 | loading starts, nothing else changes |
| MonitorScreen.Monitor.FetchDone | frontend/screens/Monitor.js:62-81 | on success the profile is kept and the charts become `AfterFetch` of the old ones; on failure nothing is redrawn; loading ends |
| MonitorScreen.Monitor.UpdateHeartRate | frontend/screens/Monitor.js:85-102 | an invalid week changes nothing and sends nothing; a valid one is drawn, closes the modal and is sent as a 7-array |
| MonitorScreen.Monitor.UpdateSteps | frontend/screens/Monitor.js:119-135 | the same rule for steps |
| MonitorScreen.Monitor.UpdateCalories | frontend/screens/Monitor.js:152-169 | invalid calories change nothing; valid ones are drawn, close the modal and are sent |
| SignUpScreen.ErrorsForSpec | frontend/screens/SignUp.js:34-42 | each error key is present exactly when its test fails. The mismatch replaces the confirmation's `required` only when both passwords are present and differ |
| SignUpScreen.FieldErrorsSpec | frontend/screens/SignUp.js:33-42 | the dictionary built for a form is the one that describes it |
| SignUpScreen.EmptyExactlyWhenAcceptable | frontend/screens/SignUp.js:44 | the dictionary is empty exactly when the form is acceptable |
| SignUpScreen.SentAge | frontend/screens/SignUp.js:55 | the age is sent exactly when parseInt reads one |
| SignUpScreen.IntendedAge | frontend/screens/SignUp.js:42 | the age as validated, positive for every accepted form |
| SignUpScreen.SentFormPassesRequired | frontend/screens/SignUp.js:55 | an accepted form registers exactly when parseInt can read its age |
| SignUpScreen.FractionalAgeSentAsZero | frontend/screens/SignUp.js:42-55 | "0.5" is accepted but sent as age 0 |
| SignUpScreen.LeadingDotAgeSentAsNull | frontend/screens/SignUp.js:42-55 | ".5" is accepted but sent with no age |
| SignUpScreen.AcceptedFormRegisters | frontend/screens/SignUp.js:42-55 | corrected: with the validated age sent, every accepted form registers with a positive age |
| SignUpScreen.SignUp.constructor | frontend/screens/SignUp.js:24-31 | all six fields empty and no errors |
| SignUpScreen.SignUp.ValidateFields | frontend/screens/SignUp.js:33-45 | the stored dictionary describes the form, and the result is true exactly when the form is acceptable |
| SignUpScreen.SignUp.HandleSignUp | frontend/screens/SignUp.js:47-56 | a request is built exactly for an acceptable form, holding the fields as typed and the parseInt age |
| HealthScreen.MedicineName | frontend/screens/Health.js:38-39 | the custom text when "Other" is selected, otherwise the selection |
| HealthScreen.ListedNameIsKept | frontend/screens/Health.js:17-23 | every listed medicine except "Other" names itself |
| HealthScreen.MedicineReminders.constructor | frontend/screens/Health.js:24-28 | no selection, no custom text, the time is now, an empty list and a closed picker |
| HealthScreen.MedicineReminders.FocusName | frontend/screens/Health.js:67 | focusing the field clears the selection, nothing else changes |
| HealthScreen.MedicineReminders.Select | frontend/screens/Health.js:78 | tapping a listed medicine selects it, nothing else changes |
| HealthScreen.MedicineReminders.TypeCustom | frontend/screens/Health.js:89 | typing replaces the custom name, nothing else changes |
| HealthScreen.MedicineReminders.OpenPicker | frontend/screens/Health.js:96 | the time button opens the picker, nothing else changes |
| HealthScreen.MedicineReminders.OnTimeChange | frontend/screens/Health.js:30-35 | a chosen time replaces the reminder time; the picker closes |
| HealthScreen.MedicineReminders.AddReminder | frontend/screens/Health.js:37-52 | an empty name changes nothing. Otherwise exactly one reminder is appended after the earlier ones, holding the name and the reminder time as the locale renders it, and the selection, the custom text and the time are reset |
| Js.Trim | ai-chatbot/ai-chatbot/src/components/AICHATBOT.js:472 | trimming yields the empty string exactly for all-white-space input, and otherwise starts and ends with a non-space |
| Js.Includes | ai-chatbot/ai-chatbot/src/components/AICHATBOT.js:305 | `includes` holds exactly when the word occurs at some position |
| Js.ParseIntOfDecimal | frontend/screens/Monitor.js:86 | parseInt reads back any number written in decimal, whatever non-digit follows |
| Js.ParseInt | frontend/screens/SignUp.js:55 | blank input gives NaN; a negative result needs a leading minus after the white space; any string starting with a decimal digit (and no `0x`) gives a number |
| Js.StringToNumber | frontend/screens/SignUp.js:42 | a blank string is 0; a digit string is its decimal value; a string whose first non-blank character is no digit, sign or point is NaN |
| Js.ToNumber | backend/routes/healthRoutes.js:146-147 | every falsy value except undefined and NaN converts to 0; a number converts to itself, a one-number array to that number, and a longer array to NaN |

## Left out

- Mongoose plumbing is not modelled:
  - casting, `CastError` and every 500 from a store exception (the database being unreachable, say);
  - how an undefined `email` in `findOne` is treated, which the model takes to match no user;
  - the optional `heartbeat` field (backend/models/User.js:15), which no core route uses.
- bcrypt is an abstract salted digest. `Verify` accepts exactly the hashed password.
- The BMI is a symbolic value of height and weight. The floating-point division and `toFixed(2)` are not modelled, and neither is the `/3000` ratio of the monitor's progress chart.
- Randomness is not modelled:
  - the quiz's `sort(() => Math.random() - 0.5)` is any sequence of swaps;
  - each chart value is drawn from its band `[base, base + spread)`.
- Clocks and locales are parameters: timestamps, `toLocaleString`, the date printed in a report, and the current month and year.
- Not modelled in the assistant:
  - speech recognition: its transcript handler, which also switches the language, and its error handler;
  - localStorage;
  - report downloads;
  - `loadHistoryItem`.
- GameScreen.FormatQuestion: questions and answers arrive already HTML-decoded; `he.decode` is not modelled.
- The canned assistant texts are named by topic and language and not spelled out: the advice, the image analysis, the help and the introductions.
- `toLowerCase` covers ASCII plus the two other characters that lower-case into keyword letters (KELVIN SIGN and LATIN CAPITAL LETTER I WITH DOT ABOVE). Other Unicode case mappings are not modelled.
- `Number()` is modelled on decimal strings with sign, fraction and surrounding white space, and on `0x` hexadecimal literals. Exponents, octal and binary literals, and `Infinity` are read as NaN.
- Numbers are exact: `Js.JsNumber` holds a real and `parseInt` an unbounded integer. Double rounding is not modelled: `parseInt("9007199254740993")` is 9007199254740993 here, but 9007199254740992 in JavaScript. Nor is the overflow of very long numerals to `Infinity`.
- Chatbot.RecognitionError: the lookup is on the eight listed codes only. In JavaScript, `errors[code]` on an object literal also finds names inherited from `Object.prototype` (such as `toString` or `constructor`), which then return that member instead of the fallback; such codes are not modelled. The speech recognizer never reports them.
- ChatAssistant.Assistant.HandleSend: its guard is written with `AllWhiteSpace`, which by the contract of `Js.Trim` is the same test as an empty `input.trim()`.
- ChatAssistant.Assistant.ReplyArrives: the history entry stores the reply itself rather than its text, and the localStorage copy is not modelled.
- MonitorScreen.ValidatedInputs: its contract is stated in `ValidatedInputsSpec`. The same goes for `ValidatedCalories` (in `ValidatedCaloriesSpec`) and for `Chatbot.AIResponse` (in the lemmas that follow it).
- MonitorScreen.Monitor.FetchDone: `data.user || data` is not modelled. The fetched user is passed in, as the profile route returns it under `user`.
- Outside the modelled core:
  - backend/routes/dietRoutes.js writes a field the user schema does not declare;
  - backend/controllers/healthController.js is never mounted;
  - frontend/context/AuthContext.js and the third-party chat and report services only forward requests;
  - the static screens hold no logic.

  These are not part of this model.

## Findings

| source | as written | input that shows it | evidently intended | confidence | as-written member | corrected member |
|---|---|---|---|---|---|---|
| frontend/screens/Game.js:62-74 | `saveScore` reads `score` before the answer's `setScore` update is applied | a one-question quiz answered correctly: the screen shows 1, the history saves 0 | the saved score includes the last answer | not executed | GameScreen.LastAnswerNotCounted | GameScreen.Quiz.HandleAnswerCounted |
| frontend/screens/SignUp.js:42-55 | validation reads the age with `Number`, the request with `parseInt` | age "0.5" is accepted and sent as 0; ".5" is accepted and sent as null, so registration fails | the request carries the age that was validated | not executed | SignUpScreen.FractionalAgeSentAsZero | SignUpScreen.AcceptedFormRegisters |
| ai-chatbot/ai-chatbot/src/components/AICHATBOT.js:487-491 | the reply restores the message list captured at send time | two messages sent less than 800 ms apart: the first answer disappears from the screen although it is in the history | each reply is appended to the current list | not executed | ChatAssistant.OverlappingRepliesLoseOne | ChatAssistant.OverlappingRepliesKept |
