# Cal-Track core, modelled in Dafny

Cal-Track is a meal tracker. The user photographs a meal and a remote model returns its nutrition data. The app shows that data on a card and adds it to a daily diary on request. A daily summary totals the diary. A chat assistant answers nutrition questions.

This project models the parts of the app that compute something or keep state:

- `Types` (`types.dfy`): the records `NutritionInfo`, `DiaryEntry` and `ChatMessage`. It also holds JavaScript's nullable values (`Option`), a settled promise (`Settled`) and the value a `catch` receives (`Thrown`). A diary entry is written as `DiaryEntry(info, id, imageUrl)` rather than as a spread of the nutrition fields.
- `Percent` (`percent.dfy`): the guarded share formula `total > 0 ? value / total * 100 : 0`. The daily summary and the card's macro bars both use it.
- `Js` (`js.dfy`): `String.prototype.trim`, with ECMAScript's full set of whitespace and line-terminator characters, and `Array.prototype.slice` for non-negative arguments.
- `DailySummary` (`daily_summary.dfy`): the `reduce` that totals the diary, progress against the fixed 2000 kcal goal, and the macronutrient distribution.
- `NutritionCard` (`nutrition_card.dfy`): the three macro bar widths and the list of at most six micronutrients.
- `AnalysisSession` (`analysis_session.dfy`): the main screen's state record `{imageFile, previewUrl, analysisResult, isLoading, error, dailyDiary}`. It covers the handlers `handleImageSelect`, `handleAnalyzeClick`, `handleAddToDiary` and `resetState`, and which parts of the screen are rendered.
- `ChatSession` (`chat_session.dfy`): the chat record `{messages, inputValue, isLoading}` and `handleSendMessage`.

Numbers are `real`. Each asynchronous handler has two steps:

- A start step issues the request.
- A settle step runs when the request settles. It applies the handler's setters to the state current at that moment. Each setter overwrites one field, and the diary and chat log are extended with updater functions, so the result is the same as applying them in order.

The remote model's reply is an input to the settle step: a value, or a thrown `Error` or non-`Error`.

JavaScript truthiness is written out. A `previewUrl` or `error` counts as present only when it is non-null and non-empty.

`AnalysisSession.Step`/`Run` and `ChatSession.Step`/`Run` drive each state machine with a sequence of user events and settlements. They also count the requests still outstanding. A settlement only happens while a request is outstanding.

The model follows the code where a tidier design might be expected:

- Preview URLs are never revoked.
- `handleAnalyzeClick` does not check `isLoading`. `AnalysisSession.TwoClicksTwoRequests` shows that two calls of `handleAnalyzeClick` issue two requests. The screen itself prevents this: while loading, the spinner replaces the Analyze button.
- A late analysis result is not checked against a generation counter. `AnalysisSession.LateResultAfterReset` shows what happens if `resetState` runs while a request is outstanding: the result is still stored, the card's condition and the photo picker's condition both hold, and `handleAddToDiary` then does nothing. The rendered screen offers no reset control while a request is loading, so this is a property of the handlers rather than of a click sequence.

## Model

| member | source | states |
|---|---|---|
| `Percent.Share` | components/NutritionCard.tsx:11-12 | A bar's percentage is 0 whenever the total is not positive. Otherwise the percentage times the total equals the value times 100. A value between 0 and the total gives a percentage in [0, 100]. |
| `Percent.SharesSumTo100` | components/NutritionCard.tsx:30-48 | If the total is the positive sum of the three macros, the three shares sum to exactly 100. |
| `Percent.Split` | components/DailySummary.tsx:24-27 | If protein + carbs + fat is not positive, all three percentages are 0. Otherwise they sum to 100 and each is proportional to its macro. Non-negative macros give percentages in [0, 100]. |
| `Js.Trim` | components/Chatbot.tsx:27 | The trimmed text is empty exactly when the input is all whitespace. Otherwise it starts and ends with non-space characters. It is the part of the input between the leading and trailing whitespace. |
| `Js.TrimIdempotent` | components/Chatbot.tsx:27 | Trimming twice gives the same text as trimming once. |
| `Js.Slice` | components/NutritionCard.tsx:55 | `slice(start, end)` clamps both ends to the length. It returns the elements from the clamped start up to the clamped end, in order. |
| `Types.CaughtMessage` | App.tsx:39 | A caught `Error` yields its own message. Any other thrown value yields the caller's fallback text. |
| `DailySummary.AddEntry` | components/DailySummary.tsx:12-17 | Each of the four running totals grows by exactly the entry's matching field. |
| `DailySummary.Reduce` | components/DailySummary.tsx:11-20 | An empty list leaves the accumulator unchanged. Otherwise the result is the fold of all but the last entry with the last entry added, so entries are folded in order. |
| `DailySummary.ReduceAddsSums` | components/DailySummary.tsx:11-20 | Folding the entries into an accumulator adds, to each field, the sum of that field over the entries. |
| `DailySummary.DailyTotals` | components/DailySummary.tsx:11-20 | Each of calories, protein, carbs and fat is the sum of the matching field over all entries. An empty diary gives all zeros. |
| `DailySummary.DailyTotalsAppend` | components/DailySummary.tsx:13-16 | Appending one entry adds exactly that entry's calories, protein, carbs and fat to the totals. |
| `DailySummary.TotalsNonNegative` | components/DailySummary.tsx:11-20 | Entries with no negative values give non-negative totals. |
| `DailySummary.Progress` | components/DailySummary.tsx:9-22 | Progress never exceeds 100. At or below 2000 kcal it is calories / 2000 * 100 exactly. At or above 2000 kcal it is 100. It is non-negative for non-negative calories. |
| `DailySummary.ProgressMonotone` | components/DailySummary.tsx:22 | More calories never give less progress. |
| `DailySummary.Summarize` | components/DailySummary.tsx:9-27 | An empty diary gives zero totals, zero progress and zero percentages. Progress follows the clamp. The percentages are 0 when the macro total is 0. Otherwise they sum to 100 and are proportional to the totals. |
| `DailySummary.PercentagesInRange` | components/DailySummary.tsx:24-27 | A diary with no negative values gives each macro percentage in [0, 100]. |
| `NutritionCard.BarPercentages` | components/NutritionCard.tsx:28-48 | The three bars are 0 when proteinG + carbohydratesG + fatG is not positive. Otherwise they sum to 100 and are proportional to the macros. Non-negative macros give bars in [0, 100]. |
| `NutritionCard.DisplayedMicronutrients` | components/NutritionCard.tsx:55 | The displayed micronutrients are exactly the first min(6, n) items, in their original order. |
| `NutritionCard.ShowsMicronutrients` | components/NutritionCard.tsx:51-55 | The micronutrient section is rendered exactly when the displayed list would hold at least one item. |
| `NutritionCard.ShortListDisplayedWhole` | components/NutritionCard.tsx:55 | A list of at most six items is displayed whole. |
| `AnalysisSession.Initial` | App.tsx:15-20 | The session starts with no photo, preview, result or error, not loading, and with an empty diary. |
| `AnalysisSession.SelectImage` | App.tsx:23-28 | Picking a photo sets the file and its fresh preview URL and clears the result and the error. The loading flag and the diary are left unchanged. |
| `AnalysisSession.StartAnalysis` | App.tsx:30-34 | With no photo the state is unchanged and nothing is sent. Otherwise the selected file is sent, loading is set, the error and result are cleared, and the photo, preview and diary are kept. |
| `AnalysisSession.FinishAnalysis` | App.tsx:35-42 | Success stores the result. Failure stores the error's message, or "An unknown error occurred." for a non-Error. Either way loading ends false, and the photo, preview and diary are kept. |
| `AnalysisSession.Reset` | App.tsx:57-63 | Photo, preview, result and error become null and loading becomes false. The diary is preserved. |
| `AnalysisSession.AddToDiary` | App.tsx:45-55 | Without both a result and a non-empty preview URL the state is unchanged. Otherwise the diary gains exactly one entry at the end, holding the result, the id and `imageUrl = previewUrl`. Earlier entries are unchanged and everything else is reset. |
| `AnalysisSession.AddToDiaryRaisesTotals` | App.tsx:47-52 | Committing a meal raises the daily totals by exactly that meal's values. |
| `AnalysisSession.CanAddToDiary` | App.tsx:46 | Committing is possible exactly when there is a result and a non-null, non-empty preview URL. It is possible only while the card, which holds the button, is rendered. |
| `AnalysisSession.ViewOf` | App.tsx:81-111 | The uploader shows exactly when no file is held, and the diary section exactly when the diary is non-empty. The card shows exactly when a result is held, and the error banner exactly when the error is truthy. The preview shows exactly when the preview URL is truthy and no result is held. The spinner and the buttons never show together, one of them shows exactly when the preview does, and the preview never shows beside the card. |
| `AnalysisSession.ViewAfterReset` | App.tsx:81-111 | After a reset only the uploader is shown, not the preview, spinner, buttons, error banner or card. The diary section is shown exactly when the diary is non-empty. |
| `AnalysisSession.ViewAfterSelect` | App.tsx:81-109 | After a photo is picked the uploader, card and error banner are hidden. The preview is shown exactly when the URL is non-empty. |
| `AnalysisSession.ViewWhileAnalyzing` | App.tsx:83-95 | Once an analysis of a previewed photo starts, the spinner replaces the buttons. No card or error banner is shown. |
| `AnalysisSession.SuccessAfterStart` | App.tsx:30-41 | After a start followed by success, the result is stored with a null error and loading false. The card is shown and committing is possible. |
| `AnalysisSession.FailureAfterStart` | App.tsx:30-41 | After a start followed by failure, the message is stored with a null result and loading false, and committing is impossible. Picking a new photo then clears the error. |
| `AnalysisSession.StepKeepsDiary` | App.tsx:45-63 | No event removes or reorders a diary entry. Only a commit adds an entry, and then only one. |
| `AnalysisSession.RunKeepsDiary` | App.tsx:15-63 | Over any sequence of events the starting diary remains a prefix. The diary grows by at most one entry per commit event. |
| `AnalysisSession.TwoClicksTwoRequests` | App.tsx:30-36 | The handler does not check the loading flag, so two calls of `handleAnalyzeClick` issue two requests. |
| `AnalysisSession.LateResultAfterReset` | App.tsx:30-63 | If `resetState` runs while a request is outstanding, the result that settles afterwards is still stored. The card's and the uploader's render conditions then both hold, and committing does nothing. |
| `AnalysisSession.PhotoToDiary` | App.tsx:23-63 | Picking a photo, analysing it successfully and committing leaves a diary of exactly that meal. The screen returns to the cleared state with no request outstanding. |
| `ChatSession.Initial` | components/Chatbot.tsx:12-16 | The chat starts with exactly one message, the assistant's greeting with role `model`. The input is empty and nothing is pending. |
| `ChatSession.EditInput` | components/Chatbot.tsx:85 | Typing changes only the input text. |
| `ChatSession.Submit` | components/Chatbot.tsx:25-36 | Blank input, or a pending reply, changes nothing and sends nothing. Otherwise one `user` message with the trimmed text is appended, the input is cleared and loading is set. The request history is the prior messages followed by the new user message. |
| `ChatSession.Ignored` | components/Chatbot.tsx:27-28 | A send is refused exactly when the input is all whitespace or a reply is pending. |
| `ChatSession.SubmitNoOpIff` | components/Chatbot.tsx:27-28 | A send leaves the chat unchanged exactly when the trimmed input is empty or a reply is pending. |
| `ChatSession.BlankInputIgnored` | components/Chatbot.tsx:27-28 | Whitespace-only input is never sent. |
| `ChatSession.ReplyText` | components/Chatbot.tsx:36-40 | The assistant's turn is the reply on success. On failure it is the error's message, or "Sorry, I couldn't connect to the assistant." for a non-Error. |
| `ChatSession.ReceiveReply` | components/Chatbot.tsx:37-43 | When the call settles, exactly one `model` message is appended and loading ends false. It holds the reply, the error's message, or the fallback text for a non-Error. |
| `ChatSession.StepValid` | components/Chatbot.tsx:25-44 | Every event preserves the invariant below. The log opens with the greeting and roles alternate model/user. User texts are non-empty and trimmed. Loading is true exactly when the log ends with a user message. At most one request is outstanding, exactly while loading, and its history is the current log. |
| `ChatSession.RunValid` | components/Chatbot.tsx:25-44 | The chat invariant holds after any sequence of events from a valid chat. |
| `ChatSession.ReachableValid` | components/Chatbot.tsx:12-44 | Every chat reachable from the opening state satisfies the invariant. In particular, at most one reply is ever pending. |
| `ChatSession.StepAppendOnly` | components/Chatbot.tsx:31-40 | No event edits or removes a message. Each event adds at most one. |
| `ChatSession.RunAppendOnly` | components/Chatbot.tsx:31-40 | Over any sequence of events the earlier messages remain a prefix of the log. |

## Left out

- `services/geminiService.ts` is left out. It is a network client: it checks for the API key, base64-encodes the file, holds the prompt and the response schema, parses JSON and rewrites every failure of the model call into one error message. The missing-key error is thrown before that rewrite and keeps its own message. A failed file read never settles the analysis: the read promise has no reject path, and the error thrown in its `onloadend` callback escapes it, so `isLoading` stays true. The model allows that run, because no event forces an analysis to settle. Analysis and chat replies enter the model as `Settled` inputs instead.
- `getChatbotResponse` is not part of this model: its source is not among the files modelled.
- The preview URL from `URL.createObjectURL` is an opaque string passed to `SelectImage`. The source never revokes it, so no acquire/release balance is stated.
- The diary id from `new Date().toISOString()` is a parameter of `AddToDiary`. The clock is outside the model, so ids are not claimed to be unique.
- Floating-point behaviour (`toFixed`, `Math.round`, CSS width strings, rounding in sums and divisions) is left out. The arithmetic is exact over `real`.
- The numbers from the remote model are not checked for sign in the source. The model does not assume they are non-negative, and the range lemmas take non-negativity as a precondition.
- `micronutrients &&` at NutritionCard.tsx:51 guards against a missing list that the unchecked JSON cast could produce. The model follows `types.ts`, where the list is always present, so that null case is not modelled.
- `Js.Slice` does not model negative arguments, which count from the end in JavaScript. The source only calls `slice(0, 6)`.
- The chat-open flag (`isChatbotOpen`) is left out, and `ChatSession` covers one mounted chat. Closing the chat unmounts it and discards its messages, input and pending flag. Reopening starts again from the greeting, and a reply that settles after a close is lost. The bound of one pending reply, and the append-only log, therefore hold per mount: a user who closes the chat while a reply is pending, reopens it and sends again has two requests outstanding.
- `AnalysisSession.Step` and `ChatSession.Step` accept every user event in every state. They check only the handlers' own guards, not whether the rendered screen offers the control. For example, no reset button is shown while an analysis is loading. The event model therefore allows more sequences than a user can produce, and the properties proved over all runs hold for the rendered screen too.
- `components/ImageUploader.tsx`, `components/DiaryEntry.tsx`, `components/Header.tsx`, JSX markup, styling, `preventDefault` and scroll-into-view are left out. They are view wiring with no state logic of their own.
- Strings are sequences of Unicode scalar values. JavaScript strings are UTF-16 code units and may hold lone surrogates, which the model cannot represent. `trim` does not depend on this, because no surrogate is whitespace.
- The input box and send button are disabled while a reply is pending, but only in the markup. The model keeps the handler's own guard and lets `EditInput` run at any time, as the `onChange` handler does.
