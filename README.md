# AiCodezy core, modelled in Dafny

AiCodezy is a coding-practice site. A user picks a problem, writes a solution,
and submits it. The server turns the submission into one Judge0 job per hidden
test case, dispatches the batch, polls Judge0 until every job reaches a
terminal status, folds the results into a verdict and stores it on the
submission record. The browser side adds:

- a filter over the problem list;
- sign-up validation rules;
- three Redux slices (authentication, AI chat, code runs);
- a landing-page card that animates a bubble sort, a binary search and a stack.

This project models that core and proves properties of it. There is one module
per source file, plus four shared modules:

- `Wrappers` holds `Option`.
- `Text` holds ASCII case mapping and `includes`.
- `Js` holds JavaScript values, truthiness, `||` and UTF-16 length.
- `Seqs` holds order-preserving subsequences, used by both list filters.

| module | file | source | form |
|---|---|---|---|
| `ProblemUtils` | `problem_utils.dfy` | `server/src/utils/ProblemUtlis.js` | pure lookups; the poll loop is a method with a `while` loop |
| `SubmitController` | `submit_controller.dfy` | `server/src/controllers/submitController.js` | a method over the record class; the aggregation loop is a `for` loop proved against `Aggregate` |
| `AiChatController` | `ai_chat_controller.dfy` | `server/src/controllers/aiChatController.js` | functions and lemmas |
| `ProblemsFilter` | `problems_filter.dfy` | `Frontened/src/Problems.jsx` | functions and lemmas |
| `SignUp` | `sign_up.dfy` | `Frontened/src/auth/signUp.jsx` | predicates and lemmas |
| `AiChatSlice`, `RunsSlice`, `AuthSlice` | `ai_chat_slice.dfy`, `runs_slice.dfy`, `auth_slice.dfy` | `Frontened/src/redux/*.js` | one class per slice; each reducer is a method that assigns fields |
| `DsaVisualize` | `dsa_visualize.dfy` | `Frontened/src/components/dsaVisualize.jsx` | a step function and invariant per animation; a class per animation whose `Tick` updates the state in place |
| `Wrappers`, `Text`, `Js`, `Seqs` | `wrappers.dfy`, `text.dfy`, `js.dfy`, `seqs.dfy` | shared | datatypes, functions and lemmas |

The code runs against two external services, and both are parameters here:

- **The batch-submit endpoint** is a function from the job list to a reply. The reply is either the handle list or a failure.
- **The status endpoint** is a function from the tokens query and the attempt number to a reply. The reply is either the `submissions` array or a failed request.

The problem store is a map from problem id to problem. The submission record is
a class. Its fields are assigned in place, and a `saves` counter stands for
`save()`. The controller method also returns a ghost trace of the side effects
in order: create, dispatch, poll, save.

### Behaviour of the code worth knowing

- An unsupported language is not rejected. `getIdByLanguage` gives `undefined` for a name outside its table, and an inherited `Object.prototype` member for `constructor` or `__proto__` (see Findings). Either value goes into every job.
- When dispatch or polling fails, the record is never finalised. It stays `pending`, and the response is 500.
- The status comes from the first failing result (the `find` after the loop). The error message comes from the last failing result (the loop overwrites it). See `StatusAndMessageFromDifferentCases`.
- A passing case is counted, timed and measured even after an earlier case failed. See `ScenarioFailureThenPass`.
- Length limits in the sign-up schema count UTF-16 code units, as JavaScript's `length` does, so an emoji counts twice.

## Model

| member | source | states |
|---|---|---|
| `ProblemUtils.LanguageId` | server/src/utils/ProblemUtlis.js:18-27 | A runtime id is found exactly when the lower-cased name is one of the table's own keys, and it is then one of the table's ids |
| `ProblemUtils.LanguageIdTable` | server/src/utils/ProblemUtlis.js:19-26 | The lookup gives 50, 54, 62, 63, 73 exactly for c, cpp, java, javascript, rust (any case); every other name gives `undefined` |
| `ProblemUtils.LanguageIdIgnoresCase` | server/src/utils/ProblemUtlis.js:26 | Upper- or lower-casing the name first does not change the id |
| `ProblemUtils.LanguageLookupAsWritten` | server/src/utils/ProblemUtlis.js:19-26 | The property read on the object literal yields `undefined` only for names that are neither an own key nor an inherited `Object.prototype` member |
| `ProblemUtils.LanguageLookupAsWrittenInherits` | server/src/utils/ProblemUtlis.js:26 | A name that lower-cases to `constructor` or `__proto__` yields the inherited member, where the intended table has no entry |
| `ProblemUtils.LanguageIdCorrectsLookup` | server/src/utils/ProblemUtlis.js:19-26 | The corrected lookup finds an id exactly when the written one finds an own property, and the two ids agree |
| `ProblemUtils.StatusLabel` | server/src/utils/ProblemUtlis.js:109-124 | A label exists exactly for status ids 4 to 14 |
| `ProblemUtils.StatusLabelInjective` | server/src/utils/ProblemUtlis.js:110-122 | Distinct ids have distinct labels, and no label is "accepted" or "pending" |
| `ProblemUtils.StatusLabelOfNonFailures` | server/src/utils/ProblemUtlis.js:109-124 | Queued (1), processing (2) and accepted (3) have no label |
| `ProblemUtils.SubmitBatch` | server/src/utils/ProblemUtlis.js:50-63 | The reply body on success, `undefined` when the request fails. What that means is stated by `SubmitProblems`: a failed batch gives 500 with the `undefined.map` TypeError and leaves the record pending |
| `ProblemUtils.Tokens` | server/src/utils/ProblemUtlis.js:68 | One token per handle, in handle order |
| `ProblemUtils.JoinTokens` | server/src/utils/ProblemUtlis.js:73 | `tokens.join(',')`; its partner is `SplitCommas` in `TokensParamRoundTrip` |
| `ProblemUtils.TokensParam` | server/src/utils/ProblemUtlis.js:68-73 | The `tokens` query parameter: the handles' tokens joined by commas; `TokensParamRoundTrip` recovers them |
| `ProblemUtils.TokensParamRoundTrip` | server/src/utils/ProblemUtlis.js:68-73 | Splitting the `tokens` parameter at commas gives back the handles' tokens in order, when the tokens contain no comma |
| `ProblemUtils.SubmitToken` | server/src/utils/ProblemUtlis.js:67-104 | The loop's outcome, request count and wait count satisfy `PollBehaviour`. That means at most 10 requests. The loop stops at the first complete reply and returns it. A failed request is rethrown at once. After 10 incomplete replies it times out. It waits once after each incomplete reply |
| `ProblemUtils.AllCompleted` | server/src/utils/ProblemUtlis.js:91 | `every` result has a status id above 2; the completion test `PollBehaviour` uses |
| `ProblemUtils.PollBehaviour` | server/src/utils/ProblemUtlis.js:83-103 | The reference definition of the poll loop that `SubmitToken` is proved against: 1 to 10 requests, all but the last incomplete, and the last one decides completion, rethrow or timeout |
| `ProblemUtils.PollBehaviourUnique` | server/src/utils/ProblemUtlis.js:83-103 | The poll contract fixes the outcome, the number of requests and the number of waits |
| `ProblemUtils.PollCompleteAtFirst` | server/src/utils/ProblemUtlis.js:91-92 | A complete first reply is returned after one request and no wait |
| `ProblemUtils.PollTimeoutIff` | server/src/utils/ProblemUtlis.js:86-103 | The call times out exactly when the first 10 replies all arrive incomplete |
| `SubmitController.FirstFailure` | server/src/controllers/submitController.js:64 | `find` gives the earliest index whose status is not 3, or nothing when all are 3 |
| `SubmitController.LastFailure` | server/src/controllers/submitController.js:54-58 | Gives the latest index whose status is not 3, or nothing when all are 3 |
| `SubmitController.Diagnostic` | server/src/controllers/submitController.js:56-57 | The diagnostic is never empty: stderr if truthy, else compile output, else message, else "Unknown Error" |
| `SubmitController.FieldValue` | server/src/controllers/submitController.js:56-57 | A result's optional string field as the JavaScript value read; it is truthy exactly when present and non-empty |
| `SubmitController.CountAccepted` | server/src/controllers/submitController.js:49-51 | The number of results with status 3; bounded by `CountAcceptedBound` |
| `SubmitController.RuntimeSum` | server/src/controllers/submitController.js:52 | The summed time of the accepted results; additive by `RuntimeSumAppend` |
| `SubmitController.MaxMemory` | server/src/controllers/submitController.js:53 | The largest memory of an accepted result, 0 when none; characterised by `MaxMemoryIsMaximum` |
| `SubmitController.FallbackStatusId` | server/src/controllers/submitController.js:64 | `found?.status_id \|\| 6`: a missing or zero status id becomes 6 |
| `SubmitController.Aggregate` | server/src/controllers/submitController.js:42-65 | The reference verdict that `AggregateResults` is proved equal to: first failure's label, count, runtime and memory over accepted results, last failure's diagnostic |
| `SubmitController.AggregateResults` | server/src/controllers/submitController.js:42-65 | The aggregation loop followed by the `find` computes exactly `Aggregate` of the results |
| `SubmitController.CountAcceptedBound` | server/src/controllers/submitController.js:50-51 | The passed count is at most the number of results, and equals it exactly when every result is accepted |
| `SubmitController.AcceptedIff` | server/src/controllers/submitController.js:45-65 | The status is "accepted" exactly when every result has status 3; then every case counts as passed and there is no error message |
| `SubmitController.FirstFailureDecidesStatus` | server/src/controllers/submitController.js:63-65 | The status is the label of the first failing result's id (6 when that id is 0) |
| `SubmitController.StatusIgnoresLaterResults` | server/src/controllers/submitController.js:63-65 | Results appended after the first failure do not change the status |
| `SubmitController.LastFailureDecidesErrorMessage` | server/src/controllers/submitController.js:54-58 | The error message is the diagnostic of the last failing result |
| `SubmitController.StatusAndMessageFromDifferentCases` | server/src/controllers/submitController.js:54-65 | With two failures, the status comes from the earlier and the error message from the later |
| `SubmitController.MaxMemoryIsMaximum` | server/src/controllers/submitController.js:53 | Memory bounds every accepted result's memory and is attained by one of them, or is 0 |
| `SubmitController.RuntimeSumAppend` | server/src/controllers/submitController.js:52 | Runtime is additive over consecutive parts of the result list |
| `SubmitController.FailuresContributeNothing` | server/src/controllers/submitController.js:49-53 | Failing results add nothing to the count, the runtime or the memory |
| `SubmitController.AppendOne` | server/src/controllers/submitController.js:49-53 | One more result adds 1, its time and possibly its memory when accepted, and nothing otherwise |
| `SubmitController.ScenarioWrongAnswerLast` | server/src/controllers/submitController.js:42-65 | Two passes (100 ms, 200 KB; 200 ms, 150 KB) and a wrong answer give Wrong Answer, 2 passed, 300 ms, 200 KB, "Unknown Error" |
| `SubmitController.ScenarioStatusAndMessageDiffer` | server/src/controllers/submitController.js:54-65 | A compilation error then a runtime error gives the compilation error's status with the runtime error's stderr |
| `SubmitController.ScenarioFailureThenPass` | server/src/controllers/submitController.js:49-65 | A compilation error then a pass gives Compilation Error with one case passed and the pass's time and memory |
| `SubmitController.BuildJobs` | server/src/controllers/submitController.js:32-37 | One job per hidden case, in order, each with the same code and language id and that case's input and expected output |
| `SubmitController.Submission.Create` | server/src/controllers/submitController.js:20-28 | The record has the request's ids, code and language, as many total cases as the problem has, status "pending", 0 passed and nothing saved |
| `SubmitController.Submission.Finalize` | server/src/controllers/submitController.js:67-73 | The five verdict fields are assigned and the record is saved once |
| `SubmitController.ErrorBody` | server/src/controllers/submitController.js:78-80 | The 500 body: the error's message when non-empty, else the stringified error |
| `SubmitController.SubmitProblems` | server/src/controllers/submitController.js:5-83 | A missing field gives 400 "Some field missing" and an unknown problem gives 400 "No problem found", both with nothing created. Otherwise a pending record is created, the jobs are built and dispatched, and the results are polled. A failed dispatch gives 500 with the TypeError message and leaves the record pending. A rethrown or timed-out poll gives 500 with its message and leaves the record pending. Complete results give 201 with the record holding `Aggregate` of them, saved once |
| `SubmitController.FieldsPresent` | server/src/controllers/submitController.js:11 | The presence guard; `SubmitProblems` answers 400 "Some field missing" exactly when it fails |
| `AiChatController.CleanPartsSpec` | server/src/controllers/aiChatController.js:10-18 | Cleaning the parts throws exactly on a nullish part. Otherwise it keeps one fresh `{ text }` per string text, in order, as a subsequence of the raw texts |
| `AiChatController.CleanChatHistorySpec` | server/src/controllers/aiChatController.js:3-23 | Throws exactly on a nullish message or part. Otherwise the output keeps length, order and each role. A non-array `parts` gives no parts; an array gives its cleaned parts |
| `AiChatController.StringPartsAllKept` | server/src/controllers/aiChatController.js:11-18 | Parts whose texts are all strings are all kept, empty strings included |
| `AiChatController.CleanOneOfClean` | server/src/controllers/aiChatController.js:4-21 | A clean message, cleaned again, is unchanged |
| `AiChatController.CleanIdempotent` | server/src/controllers/aiChatController.js:3-23 | A cleaned history, cleaned again, is unchanged |
| `AiChatController.CleanParts` | server/src/controllers/aiChatController.js:10-18 | The part filter of one message; specified by `CleanPartsSpec` |
| `AiChatController.CleanOne` | server/src/controllers/aiChatController.js:4-21 | One message's clean copy; specified through `CleanChatHistorySpec` |
| `AiChatController.CleanChatHistory` | server/src/controllers/aiChatController.js:3-23 | cleanChatHistory; specified by `CleanChatHistorySpec`, idempotent by `CleanIdempotent` |
| `Text.IncludesIff` | Frontened/src/Problems.jsx:52-54 | `includes` holds exactly when the needle occurs at some position |
| `Text.Includes` | Frontened/src/Problems.jsx:52-54 | `String.prototype.includes`; characterised by `IncludesIff` |
| `Text.Lower` | Frontened/src/Problems.jsx:52 | `toLowerCase` on ASCII letters, position by position; idempotent, and undoes `Upper` |
| `Text.UpperChar` | Frontened/src/Problems.jsx:222 | `toUpperCase` of one ASCII character; its use in the label is stated by `DifficultyLabelOfLevel` |
| `ProblemsFilter.FilteredProblems` | Frontened/src/Problems.jsx:50-68 | Every problem in the filtered list passes all three conditions, and the list is no longer than the input |
| `ProblemsFilter.FilteredIsSubsequence` | Frontened/src/Problems.jsx:50-68 | The filtered list is an order-preserving subsequence of the problems, and every problem meeting all three conditions is in it |
| `ProblemsFilter.FilterIdempotent` | Frontened/src/Problems.jsx:50-68 | Filtering the filtered list again changes nothing |
| `ProblemsFilter.FilteredCount` | Frontened/src/Problems.jsx:50-68 | Every value occurs in the filtered list exactly as often as in the list when it is kept, and not at all otherwise |
| `ProblemsFilter.MatchesSearch` | Frontened/src/Problems.jsx:51-55 | The term occurs, ignoring case, in the title or a tag; see `SearchIgnoresCase`, `EmptySearchKeeps` |
| `ProblemsFilter.MatchesDifficulty` | Frontened/src/Problems.jsx:57-59 | "all", or the lower-cased level equals the selection as given; see `UpperCaseDifficultyMatchesNothing` |
| `ProblemsFilter.SomeTagIncludes` | Frontened/src/Problems.jsx:53-54 | `tags.some(...)` with a case-insensitive `includes`; the tag half of `MatchesSearch` |
| `ProblemsFilter.SomeTagEquals` | Frontened/src/Problems.jsx:63-64 | `tags.some(...)` with a case-insensitive equality; the tag test of `MatchesCategory` |
| `ProblemsFilter.MatchesCategory` | Frontened/src/Problems.jsx:61-65 | "all", or some tag equals the category ignoring case |
| `ProblemsFilter.Keep` | Frontened/src/Problems.jsx:67 | The conjunction of the three conditions that `FilteredProblems` keeps |
| `ProblemsFilter.SearchIgnoresCase` | Frontened/src/Problems.jsx:51-55 | An upper-cased search term selects exactly the same problems |
| `ProblemsFilter.EmptySearchKeeps` | Frontened/src/Problems.jsx:51-67 | With an empty search and both selections "all", a problem is kept exactly when it has a title or at least one tag |
| `ProblemsFilter.UpperCaseDifficultyMatchesNothing` | Frontened/src/Problems.jsx:57-59 | The selection is not lower-cased, so a selection with an upper-case letter matches no problem |
| `ProblemsFilter.DifficultyLabel` | Frontened/src/Problems.jsx:221-224 | The label is never empty |
| `ProblemsFilter.DifficultyLabelOfLevel` | Frontened/src/Problems.jsx:221-223 | A present level keeps its length and all but its first character, starts with no lower-case letter, and equals the level ignoring case |
| `ProblemsFilter.DifficultyLabelExamples` | Frontened/src/Problems.jsx:221-224 | "easy" is shown as "Easy"; a missing or empty level as "Unknown" |
| `SignUp.UsernamePatternIff` | Frontened/src/auth/signUp.jsx:10 | The pattern with its lookahead holds exactly for a non-empty word of letters, digits and underscores that contains a letter |
| `SignUp.UsernameValidIff` | Frontened/src/auth/signUp.jsx:7-10 | A username is accepted exactly when it has 3 or more characters, all letters, digits or underscores, and at least one letter |
| `SignUp.UsernameWithoutLetterRejected` | Frontened/src/auth/signUp.jsx:10 | Names of digits and underscores only get "Must contain letters" |
| `SignUp.UsernameExamples` | Frontened/src/auth/signUp.jsx:7-10 | "ab_1" is accepted; "12" gets both username messages, in schema order |
| `SignUp.PasswordValidIff` | Frontened/src/auth/signUp.jsx:12-18 | A password is accepted exactly when it has 8 or more characters, an upper-case letter, a lower-case letter, a digit and one of `!@#$%^&*`. Each message appears exactly when its rule fails |
| `SignUp.PasswordAcceptedExample` | Frontened/src/auth/signUp.jsx:12-18 | "Passw0rd!" is accepted |
| `SignUp.PasswordWeakExample` | Frontened/src/auth/signUp.jsx:12-18 | "password" gets the upper-case, number and special-character messages in that order |
| `SignUp.PasswordAstralExample` | Frontened/src/auth/signUp.jsx:14 | "Aa1!" followed by two emoji is eight code units and is accepted |
| `SignUp.UsernameAstralExample` | Frontened/src/auth/signUp.jsx:9-10 | "a" followed by an emoji passes `min(3)` and fails only the pattern |
| `SignUp.UsernamePattern` | Frontened/src/auth/signUp.jsx:10 | The regular expression with its lookahead; reduced by `UsernamePatternIff` |
| `SignUp.UsernameIssues` | Frontened/src/auth/signUp.jsx:7-10 | The username messages in schema order; accepted iff by `UsernameValidIff` |
| `SignUp.PasswordIssues` | Frontened/src/auth/signUp.jsx:12-18 | The password messages in schema order; accepted iff by `PasswordValidIff` |
| `Js.Utf16Length` | Frontened/src/auth/signUp.jsx:14 | The JavaScript length: at least one and at most two code units per character |
| `Js.Utf16LengthOfBmp` | Frontened/src/auth/signUp.jsx:9 | A string without characters above U+FFFF has one code unit per character |
| `Js.Or` | Frontened/src/redux/aiChatslicer.js:61-62 | `a \|\| b` is one of its operands, and it is truthy exactly when either operand is; so a truthy fallback makes every rejected error truthy |
| `Js.Truthy` | Frontened/src/redux/authSlicer.js:73 | `!!v`: `undefined`, `null`, `false`, `0` and `""` are falsy |
| `AiChatSlice.RejectedError` | Frontened/src/redux/aiChatslicer.js:60-62 | The error after a rejection is always truthy: the payload's message when truthy, else the server-down text |
| `AiChatSlice.AiChatState.constructor` | Frontened/src/redux/aiChatslicer.js:26-31 | Empty history, not loading, no error, no problem id |
| `AiChatSlice.AiChatState.ResetChat` | Frontened/src/redux/aiChatslicer.js:37-40 | History emptied and error cleared; loading and problem id unchanged |
| `AiChatSlice.AiChatState.UpdateChat` | Frontened/src/redux/aiChatslicer.js:41-43 | The payload is appended; earlier entries and the other fields are unchanged |
| `AiChatSlice.AiChatState.TrackId` | Frontened/src/redux/aiChatslicer.js:44-46 | Only the problem id changes |
| `AiChatSlice.AiChatState.FetchPending` | Frontened/src/redux/aiChatslicer.js:50-53 | Loading, error cleared, history unchanged |
| `AiChatSlice.AiChatState.FetchFulfilled` | Frontened/src/redux/aiChatslicer.js:54-57 | Not loading, reply appended to the history, error unchanged |
| `AiChatSlice.AiChatState.FetchRejected` | Frontened/src/redux/aiChatslicer.js:58-63 | Not loading, error set to the message or the fallback text (always truthy), history unchanged; every reducer keeps "loading implies no error" |
| `RunsSlice.RunState.constructor` | Frontened/src/redux/runsSlicer.js:24-29 | No result, not loading, no error, waiting |
| `RunsSlice.RunState.ResetRunState` | Frontened/src/redux/runsSlicer.js:36 | Back to exactly the initial state from any state |
| `RunsSlice.RunState.Pending` | Frontened/src/redux/runsSlicer.js:40-44 | Loading, no error, waiting; the previous result stays |
| `RunsSlice.RunState.Fulfilled` | Frontened/src/redux/runsSlicer.js:45-49 | Result set to the payload, not loading, not waiting; an earlier error is kept |
| `RunsSlice.RunState.Rejected` | Frontened/src/redux/runsSlicer.js:51-55 | Error set to the message or "Failed to run problem", not loading, not waiting, result kept; every reducer keeps "loading implies waiting and no error" |
| `AuthSlice.AuthState.constructor` | Frontened/src/redux/authSlicer.js:56-61 | No user, not authenticated, not loading, no error, `pending` undefined |
| `AuthSlice.AuthState.Pending` | Frontened/src/redux/authSlicer.js:67-122 | Every pending case clears the error. Register and login (67-70, 84-87) raise `pending` and leave `loading`. Logout and checkAuth (101-104, 120-122) raise `loading` |
| `AuthSlice.AuthState.Fulfilled` | Frontened/src/redux/authSlicer.js:71-128 | Register, login and checkAuth store the payload as the user and authenticate exactly when it is truthy. Register and login clear `pending` and keep `loading` and the error. Logout clears user, authentication, loading and error |
| `AuthSlice.AuthState.Rejected` | Frontened/src/redux/authSlicer.js:76-134 | Every rejection clears the user, the authentication and `loading`, and leaves `pending` alone. Register, login and logout store the message or "Something went wrong"; checkAuth stores the message with no fallback. All handlers keep "authenticated exactly when the user is truthy" and "loading implies no error" |
| `DsaVisualize.InitialState` | Frontened/src/components/dsaVisualize.jsx:48-57 | Every card starts at step 0; only a missing `array` or `elements` for the card's category throws |
| `DsaVisualize.InitialStatesOfTable` | Frontened/src/components/dsaVisualize.jsx:4-57 | Starting values: the sort and the two structures start with copies of their arrays; the search starts with the window (0, 4) and midpoint -1 |
| `DsaVisualize.BubbleInit` | Frontened/src/components/dsaVisualize.jsx:91-95 | The closure's starting variables; invariant by `BubbleInitInv` |
| `DsaVisualize.BubbleStep` | Frontened/src/components/dsaVisualize.jsx:103-130 | One interval tick of the sort; invariant kept by `BubbleStepPreserves` |
| `DsaVisualize.SwapAdjacent` | Frontened/src/components/dsaVisualize.jsx:108 | The swap exchanges two neighbours, leaves every other position alone and keeps the multiset of values |
| `DsaVisualize.BubbleInitInv` | Frontened/src/components/dsaVisualize.jsx:91-95 | The starting state satisfies the bubble-sort invariant |
| `DsaVisualize.BubbleStepPreserves` | Frontened/src/components/dsaVisualize.jsx:103-130 | A tick keeps the invariant. The array stays a permutation of the original, and it is sorted whenever the interval stops. At most one adjacent pair is swapped, and only an out-of-order one. `(i, j)` moves forward lexicographically while the interval runs |
| `DsaVisualize.CompareTick` | Frontened/src/components/dsaVisualize.jsx:104-111 | A tick inside a pass compares one pair, swaps it only when out of order, and advances `j` |
| `DsaVisualize.PassEndTick` | Frontened/src/components/dsaVisualize.jsx:118-120 | After a pass with a swap, the next tick starts a pass one shorter: `i + 1`, `j` 0, no swap yet, with the invariant kept |
| `DsaVisualize.StopTick` | Frontened/src/components/dsaVisualize.jsx:113-130 | After a pass with no swap, or once `i` reaches n - 1, the interval stops on a sorted array |
| `DsaVisualize.BubbleFinal` | Frontened/src/components/dsaVisualize.jsx:97-131 | Running ticks until the interval stops terminates, in a stopped state that keeps the invariant |
| `DsaVisualize.BubbleSortSorts` | Frontened/src/components/dsaVisualize.jsx:89-132 | Any starting array ends sorted, and as a permutation of itself |
| `DsaVisualize.BubbleSortAnimation.constructor` | Frontened/src/components/dsaVisualize.jsx:89-95 | The array is a fresh copy of the entry's array; `i`, `j`, `swapped` start at 0, 0, false |
| `DsaVisualize.BubbleSortAnimation.Tick` | Frontened/src/components/dsaVisualize.jsx:103-130 | Updates the array and counters in place exactly as `BubbleStep`. It publishes a snapshot exactly when the interval goes on. Once stopped the array is sorted and a permutation of the original |
| `DsaVisualize.BubbleSortAnimation.CompareAdjacent` | Frontened/src/components/dsaVisualize.jsx:104-111 | The in-pass branch of a tick, in place |
| `DsaVisualize.BubbleSortAnimation.SwapInPlace` | Frontened/src/components/dsaVisualize.jsx:108 | The destructuring swap on the array itself |
| `DsaVisualize.BubbleSortAnimation.NextPass` | Frontened/src/components/dsaVisualize.jsx:118-120 | The end-of-pass branch of a tick, in place |
| `DsaVisualize.Mid` | Frontened/src/components/dsaVisualize.jsx:149 | The midpoint lies in [low, high] whenever low <= high |
| `DsaVisualize.SearchInit` | Frontened/src/components/dsaVisualize.jsx:138-139 | The window (0, n - 1); invariant by `SearchInitInv` |
| `DsaVisualize.SearchStep` | Frontened/src/components/dsaVisualize.jsx:148-166 | One interval tick of the search; invariant and progress by `SearchStepPreserves` |
| `DsaVisualize.SearchInitInv` | Frontened/src/components/dsaVisualize.jsx:138-139 | The starting window satisfies the search invariant |
| `DsaVisualize.SearchStepPreserves` | Frontened/src/components/dsaVisualize.jsx:148-166 | A tick keeps the window inside the array. On a sorted array it never excludes the target. A tick that does not stop strictly shrinks `high - low` |
| `DsaVisualize.SearchFinal` | Frontened/src/components/dsaVisualize.jsx:142-167 | Running ticks until the interval stops terminates, in a stopped state that keeps the invariant |
| `DsaVisualize.BinarySearchFinds` | Frontened/src/components/dsaVisualize.jsx:134-168 | On a sorted array the search stops inside its window exactly when the target is present, and the last midpoint then holds it |
| `DsaVisualize.DemoSearch` | Frontened/src/components/dsaVisualize.jsx:19-20 | Searching 70 in [10, 20, 30, 100, 220] shows midpoints 2 and 3, then stops with window (3, 2): not found |
| `DsaVisualize.BinarySearchAnimation.constructor` | Frontened/src/components/dsaVisualize.jsx:134-139 | `low` is 0 and `high` is the last index of the entry's array |
| `DsaVisualize.BinarySearchAnimation.Tick` | Frontened/src/components/dsaVisualize.jsx:148-166 | Updates `low`, `high` and running exactly as `SearchStep`, keeping the invariant. It publishes (low, high, mid) exactly when the window is not empty |
| `DsaVisualize.RandomValue` | Frontened/src/components/dsaVisualize.jsx:174 | A drawn value lies in [50, 99] |
| `DsaVisualize.StackInit` | Frontened/src/components/dsaVisualize.jsx:171-174 | The elements, pushing, with the first drawn value; invariant by `StackInitInv` |
| `DsaVisualize.StackStep` | Frontened/src/components/dsaVisualize.jsx:182-189 | One push or pop tick; invariant kept by `StackStepPreserves` |
| `DsaVisualize.PopLast` | Frontened/src/components/dsaVisualize.jsx:187 | `elements.pop()`, which leaves an empty array empty; its partner is the push, by `PopUndoesPush` |
| `DsaVisualize.PopUndoesPush` | Frontened/src/components/dsaVisualize.jsx:183-187 | Popping after pushing `v` gives back the stack, and a pop shortens a non-empty stack by one |
| `DsaVisualize.StackInitInv` | Frontened/src/components/dsaVisualize.jsx:171-174 | A stack of 2 to 5 elements, pushing, satisfies the stack invariant |
| `DsaVisualize.StackStepPreserves` | Frontened/src/components/dsaVisualize.jsx:182-189 | A tick keeps the invariant, so the length stays within [2, 6]. The bottom two elements never change, and every element that is not an original one lies in [50, 99]. A push adds the held value on top; a pop removes the top |
| `DsaVisualize.StackAnimation.constructor` | Frontened/src/components/dsaVisualize.jsx:170-174 | The stack starts as the entry's elements, pushing, holding a value from the first draw |
| `DsaVisualize.StackAnimation.Tick` | Frontened/src/components/dsaVisualize.jsx:182-195 | Pushes or pops in place exactly as `StackStep`, keeps the invariant and the length within [2, 6], and publishes every snapshot |

## Left out

- Network I/O: axios, the RapidAPI headers and URLs, request timeouts. Both Judge0 endpoints are parameters. `waitOneSec` is represented only by a count of waits.
- Persistence: Mongoose `create`, `findById` and `save` are a map and a class with a save counter. Schema defaults, validation and timestamps are not modelled.
- `SubmitController.SubmitProblems`: the jobs carry the corrected id `LanguageId`. For a language that lower-cases to `constructor` or `__proto__` the code sends the inherited member instead (see Findings). JSON serialisation drops the function and sends the prototype as `{}`.
- `SubmitController.SubmitProblems`: the language is a string. A truthy non-string language in the JSON body passes the presence test, so the record is created. `toLowerCase` then throws, and the reply is a 500 with the record left pending. The model does not have that path.
- `SubmitController.SubmitProblems`: the problem store is a map, so an id it lacks gives 400 "No problem found". A malformed id makes `findById` reject with a cast error, which the catch turns into a 500. The model does not tell malformed ids apart.
- `AiChatController.CleanChatHistory`: the history is a sequence. A `chatHistory` that is not an array makes `chatHistory.map` throw a TypeError, and the model does not have that case.
- `SubmitController.SubmitProblems`: a missing request field is the empty string. JavaScript's other falsy values (`undefined`, `null`) are not distinguished from it.
- `SubmitController.SubmitProblems`: the body of a 500 reply for an error without a message is `JSON.stringify(err)`. The model does not compute that text.
- `SubmitController.AggregateResults`: `parseFloat(time)` is float parsing. Times and memories are natural numbers (milliseconds, kilobytes), and a missing value is 0, as `x || 0` gives.
- `Text.Lower`: `toLowerCase` and `toUpperCase` are modelled on ASCII letters only. Unicode case mapping is not modelled.
- The `runProblems` and `getProblemSubmission` handlers named by `server/src/routes/submitProblem.js` are not defined in the controller file. The Run and history paths are not part of this model.
- The AI chat endpoint's Gemini client, its streaming reply and its JSON framing are a foreign library and network I/O. Only `cleanChatHistory` is modelled.
- The email rule of the sign-up schema relies on the validation library's internal pattern, which is not available.
- Redux's Immer drafts, action creators, thunks and the store are left out. Each case reducer is a method on the slice's state. For a rejection, the message parameter is the value of `action.payload?.message`. The thunks post and get over HTTP and are not modelled. That includes `logoutUser`, which posts to the login URL.
- React rendering, framer-motion and timers are left out. `startAnimations` and `stopAnimations` have no caller on the page, whose "Start Visualizations" button links to another site. So the animation routines cannot be reached, and the page shows only the initial states. Each modelled tick assumes the `isAnimating` guard passes. A routine started from a render where that captured flag is `false` would clear its interval on the first tick. The `step` counter of a frame is its position in `frames`.
- `Math.random` is a parameter `roll` in [0, 49], the floored `Math.random() * 50`.
- `DsaVisualize.StackInitInv` and `DsaVisualize.StackAnimation.constructor` cover stacks that start with 2 to 5 elements: the table's stack and queue start with 3. A longer start would overshoot the bound of 6. The queue card is animated by the same stack routine, as in the source.
- The table entries' colour and border classes are presentation only.

## Findings

| source | as written | input that shows it | evidently intended | confidence | as-written member | corrected member |
|---|---|---|---|---|---|---|
| server/src/utils/ProblemUtlis.js:26 | `languageWithId[lang.toLowerCase()]` reads a property of a plain object literal, so names of members inherited from `Object.prototype` are found too | language `"constructor"` or `"Constructor"` yields the `Object` constructor function; `"__proto__"` yields the prototype object; either goes into every job as the language id | only the five table keys have an id; every other name gives `undefined` | not executed; follows from JavaScript property lookup | `ProblemUtils.LanguageLookupAsWritten`, `ProblemUtils.LanguageLookupAsWrittenInherits` | `ProblemUtils.LanguageId`, `ProblemUtils.LanguageIdCorrectsLookup` |
