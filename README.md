# InvestLearn core, modelled in Dafny

InvestLearn is a small learning app built around personal finance. It has two parts:

- **The front end.**
  - The dashboard shows an XP bar and two live "top mover" charts driven by a synthetic random walk.
  - Each learning module opens a modal: a video, then a generated session of quiz, scenario and calculator challenges that award XP.
  - There is also a single-question learning page backed by a question bank with a fixed fallback.
  - The profile page derives a rank, a level and achievements.
  - The redeem page spends coins on partner offers.
- **The back end.** It keeps users (email, points, coins) and serves routes to read, create, update, debit and credit them, and a top-50 leaderboard.

This project models those parts and proves properties of them. There is one Dafny module per source file or component:

| file | module | models |
|---|---|---|
| common.dfy | Common | `Option`, `Result`, JavaScript `Math.round`, the falsy-value default on strings, min/max |
| json.dfy | Json | the values `JSON.parse` can return |
| chart_helpers.dfy | ChartHelpers | `nextVal`, `makeInitialSeries`, the sliding window, `buildPath`, `pickWinners` |
| dashboard.dfy | Dashboard | `App`: XP bar, idle gain, module open/close/complete, the chart tick |
| challenges.dfy | Challenges | `QuizSimulation`, `ScenarioSimulation`, `CalculatorSimulation` and which of them can report |
| session.dfy | Session | `callCohereApiForSession`'s checks, `CohereSimulationContainer`, `LearningModal` |
| question_bank.dfy | QuestionBank | `getQuestionBank` |
| learning_view.dfy | LearningView | `LearningView` |
| user_model.dfy | UserModel | the user schema: normalised email, defaults, minimums |
| user_routes.dfy | UserRoutes | the user routes over an in-memory store |
| profile.dfy | Profile | rank, level, progress bar and achievements |
| redeem.dfy | Redeem | the offers, the redeem guard and the in-progress flag |

State that the source changes step by step lives in classes. Each event handler is a method whose contract gives the new state:

- `Dashboard.App`
- `Challenges.QuizSim`, `Challenges.ScenarioSim`, `Challenges.CalculatorSim`
- `Session.SessionContainer`, `Session.LearningModal`
- `LearningView.LearningPage`
- `UserRoutes.UserStore`
- `Profile.RankState`
- `Redeem.RedeemPage`

Pure computations are functions, proved against their contracts and related by lemmas.

The environment is passed in as parameters:

- Timers are explicit events: `Tick`, `TimerFired`.
- `Math.random()` draws are parameters in [0, 1).
- The outcomes of the remote calls are data.
- `JSON.parse` is an oracle `string -> Option<Json>`.

## Model

| member | source | states |
|---|---|---|
| ChartHelpers.Clamp | frontend/src/utils/chartHelpers.js:37 | the result lies in [40, 200]; a value inside is kept, one below becomes 40 and one above 200 |
| ChartHelpers.RoundCents | frontend/src/utils/chartHelpers.js:38 | rounding to cents moves a value by less than 0.005 below and at most 0.005 above |
| ChartHelpers.RoundCentsInRange | frontend/src/utils/chartHelpers.js:37-38 | rounding a clamped value to cents keeps it in [40, 200] |
| ChartHelpers.NextVal | frontend/src/utils/chartHelpers.js:32-39 | one walk step lands in [40, 200] for any previous value and any draws |
| ChartHelpers.NextValStep | frontend/src/utils/chartHelpers.js:34-38 | from a value in range, one step with draws in [0, 1) moves it by at most 2.2 + 0.65 + 0.005 |
| ChartHelpers.MakeInitialSeries | frontend/src/utils/chartHelpers.js:24-30 | exactly n points with x = 0..n-1; the first y is a step from the seed and each later y a step from the previous y; consecutive and in range |
| ChartHelpers.Advance | frontend/src/App.jsx:110 | a tick keeps the length, drops the oldest point and appends a point at x = last.x + 1 whose y is one walk step from the last y, inside [40, 200] |
| ChartHelpers.AdvanceKeepsWindow | frontend/src/App.jsx:110 | a tick keeps x consecutive and y in range |
| ChartHelpers.MinY | frontend/src/utils/chartHelpers.js:3 | the result is one of the y values and no y value is below it |
| ChartHelpers.MaxY | frontend/src/utils/chartHelpers.js:4 | the result is one of the y values and no y value is above it |
| ChartHelpers.YScaleEnds | frontend/src/utils/chartHelpers.js:6-10 | with minY < maxY, minY maps to height - 12 and maxY to 12 |
| ChartHelpers.YScaleBounds | frontend/src/utils/chartHelpers.js:6-10 | every value in [minY, maxY] maps into [12, height - 12] when height >= 24 |
| ChartHelpers.YScaleFlat | frontend/src/utils/chartHelpers.js:7 | a flat series maps every value to height / 2 |
| ChartHelpers.XScaleEnds | frontend/src/utils/chartHelpers.js:11-14 | the first point maps to 0 and the last to width |
| ChartHelpers.XScaleIncreasing | frontend/src/utils/chartHelpers.js:11-14 | for width > 0, x strictly increases with the index |
| ChartHelpers.BuildPath | frontend/src/utils/chartHelpers.js:1-22 | an empty series gives an empty path and 0/0; otherwise minY/maxY are the extremes, and there is one M then n-1 L commands, in order, at the scaled coordinates |
| ChartHelpers.FirstMaxUnique | frontend/src/utils/chartHelpers.js:51-54 | the first-wins winner is unique: ties go to the earliest entry |
| ChartHelpers.FirstMinUnique | frontend/src/utils/chartHelpers.js:55-58 | the first-wins loser is unique: ties go to the earliest entry |
| ChartHelpers.PickWinners | frontend/src/utils/chartHelpers.js:41-63 | no qualifying series: keys[0], keys[1] or the winner, with -Infinity/+Infinity; otherwise the first entries with the largest and the smallest change (series of fewer than 2 points skipped), after the falsy-key fallbacks, and winnerPct >= loserPct |
| ChartHelpers.RankingExample | frontend/src/utils/chartHelpers.js:41-63 | of a +10% and a -10% series, the first wins and the second loses |
| ChartHelpers.PctZeroStart | frontend/src/utils/chartHelpers.js:50 | a series starting at 0 has change 0 |
| Dashboard.XpPct | frontend/src/App.jsx:105 | the bar width never exceeds 100, is non-negative for non-negative XP, and is 100 at the goal |
| Dashboard.IdleGain | frontend/src/App.jsx:110 | the idle gain from one draw is 0..3 |
| Dashboard.IdleXp | frontend/src/App.jsx:110 | below the goal XP grows by the gain but never past 1000; at or above the goal it is unchanged |
| Dashboard.App.constructor | frontend/src/App.jsx:103-109 | XP 420, no module open, one 160-point window per module key in order; each has x = 0..159, its first y is one walk step from its key's seed and every later y one step from the previous y, with that module's draws |
| Dashboard.App.Tick | frontend/src/App.jsx:110 | every series advances by one step with the keys kept; XP grows idly only while no module is open; XP <= 1000 is kept |
| Dashboard.App.OpenModule | frontend/src/App.jsx:143 | the clicked module becomes active; nothing else changes |
| Dashboard.App.CloseModule | frontend/src/App.jsx:175 | no module is active; nothing else changes |
| Dashboard.App.ModuleComplete | frontend/src/App.jsx:114 | XP becomes min(1000, XP + award) and the module closes |
| Challenges.CalculatorViewAsWritten | frontend/src/App.jsx:276-286 | as written, a non-array `inputs` throws during render and the placeholder is never shown |
| Challenges.CalculatorPlaceholderUnreachable | frontend/src/App.jsx:277-286 | for every input the as-written calculator never shows "Loading calculator..." |
| Challenges.CalculatorView | frontend/src/App.jsx:284-286 | with the guard first, the placeholder shows iff `inputs` is not an array, and the render never throws |
| Challenges.View | frontend/src/App.jsx:255-262 | a challenge is live iff it is a quiz with a non-empty question array, a scenario with a choice array or a calculator with an input array; the render throws iff it is a calculator without an input array; an unknown type shows the notice; a challenge that can report is live |
| Challenges.IntendedView | frontend/src/App.jsx:255-262 | with the calculator guarded first, nothing throws, and the view differs from the source's exactly on calculators without an input array |
| Challenges.QuizAward | frontend/src/App.jsx:301 | the award lies in [0, 50]; a perfect quiz earns 50 and no right answer earns 0 |
| Challenges.QuizAwardMonotone | frontend/src/App.jsx:301 | more right answers never earn less |
| Challenges.QuizAwardHalf | frontend/src/App.jsx:301 | one right answer of two earns 25 |
| Challenges.QuizSim.constructor | frontend/src/App.jsx:292 | the first question, score 0, nothing answered |
| Challenges.QuizSim.Answer | frontend/src/App.jsx:300 | ignored once answered; otherwise locks the answer in, correct iff string-equal to `correctAnswer`, and scores one point exactly then |
| Challenges.QuizSim.Next | frontend/src/App.jsx:301 | before the last question: the next question with the answer state cleared; on the last: the award for the number of locked-in right answers |
| Challenges.OutcomeFor | frontend/src/App.jsx:377 | the outcome for a locked answer exists iff the branch has the outcome for that verdict |
| Challenges.ScenarioSim.Render | frontend/src/App.jsx:339-386 | the scenario throws iff it shows a branch without a question object, or an outcome that is missing |
| Challenges.ScenarioSim.constructor | frontend/src/App.jsx:313-317 | the choice step, nothing selected or answered |
| Challenges.ScenarioSim.SelectChoice | frontend/src/App.jsx:323-326 | the chosen branch is remembered and its question step shown, which throws iff the branch has no question object |
| Challenges.ScenarioSim.Answer | frontend/src/App.jsx:328-337 | ignored once answered; otherwise locks the answer, decides correctness by exact match and starts the reveal timer |
| Challenges.ScenarioSim.TimerFired | frontend/src/App.jsx:334-336 | the outcome step is shown, and throws iff the outcome for the locked answer is missing; the answer is unchanged |
| Challenges.ScenarioSim.Continue | frontend/src/App.jsx:376-385 | on a rendered outcome, the award is the XP of the correct outcome iff the locked answer equals `correctAnswer`, else that of the incorrect one |
| Challenges.FinishableIffOutcome | frontend/src/App.jsx:323-385 | a branch is finishable iff it has a question and some answer button on it leads to an outcome that exists |
| Challenges.PromptShapedChoice | frontend/src/App.jsx:65 | a branch in the prompt's `{text, outcome, xp}` shape has no question object and no outcomes |
| Challenges.PromptShapedScenarioStuck | frontend/src/App.jsx:65 | a scenario of prompt-shaped branches renders its choices but can never report |
| Challenges.ReadableScenarioReports | frontend/src/App.jsx:330-377 | with every branch in the shape the component reads, every branch is finishable and a non-empty scenario can report |
| Challenges.ValueOr | frontend/src/App.jsx:280 | a present non-zero value is used; a missing or zero value gives the default |
| Challenges.Percentages | frontend/src/App.jsx:280-281 | savings is never negative, the three add up to 100 when needs and wants leave room, and savings is 0 otherwise |
| Challenges.ZeroIncomeCountsAsOne | frontend/src/App.jsx:280 | an income of 0, of 1, or none at all gives the same split |
| Challenges.BudgetRuleSplit | frontend/src/App.jsx:280-282 | 1000/500/300 splits 50/30/20, which is the "Perfect balance" band |
| Challenges.Feedback | frontend/src/App.jsx:282 | each band holds exactly on its range: 18-22, below 10, above 25, otherwise |
| Challenges.FeedbackText | frontend/src/App.jsx:282 | every band has a non-empty message |
| Challenges.FeedbackTextDistinct | frontend/src/App.jsx:282 | no two bands share a message |
| Challenges.InitialValues | frontend/src/App.jsx:277 | every input id gets an entry, holding the value of the last input with that id |
| Challenges.CalculatorSim.constructor | frontend/src/App.jsx:277-278 | every input id has a slider value, holding the value of the last input with that id |
| Challenges.CalculatorSim.InputChange | frontend/src/App.jsx:279 | only the moved slider's value changes |
| Challenges.CalculatorSim.Continue | frontend/src/App.jsx:288 | the award is always 50 |
| Session.Envelope | frontend/src/App.jsx:87-88 | a match exists iff some `{` precedes some `}`; it is the span from the first `{` to the last `}` |
| Session.EnvelopeStripsSurroundings | frontend/src/App.jsx:87 | text around an object, holding no `{` before it and no `}` after it, is stripped |
| Session.ParseSession | frontend/src/App.jsx:38-99 | a missing or placeholder key fails first; then request failure and non-OK status; otherwise accepted iff the envelope parses to a value with a `challenges` array, and every other outcome is the "not valid JSON" error |
| Session.MissingKeyWins | frontend/src/App.jsx:39-41 | without a usable key the request outcome does not matter |
| Session.WrappedReplyAccepted | frontend/src/App.jsx:86-93 | a reply wrapped in prose is accepted as the object inside it |
| Session.StepComplete | frontend/src/App.jsx:239-246 | the XP is added; before the last challenge the index moves on, and on the last the new total is reported |
| Session.Run | frontend/src/App.jsx:239-262 | a run never leaves the challenge array and never moves back |
| Session.RunAllReportFrom | frontend/src/App.jsx:239-246 | when every challenge can report, a run from challenge i reports once, on the last challenge, the running total plus the remaining awards |
| Session.RunAllReport | frontend/src/App.jsx:239-246 | a session whose every challenge can report reports exactly the sum of its step awards |
| Session.RunFewer | frontend/src/App.jsx:241-245 | nothing is reported before the last challenge completes |
| Session.RunBlocked | frontend/src/App.jsx:255-262 | a challenge that cannot report (placeholder, notice, throw, or a quiz question or scenario without a way to its Continue) is never passed, and the session then never reports |
| Session.ProgressPct | frontend/src/App.jsx:253 | the bar lies in (0, 100] and is full iff on the last challenge |
| Session.SessionContainer.constructor | frontend/src/App.jsx:219-223 | loading, no error, no data, first challenge, no XP |
| Session.SessionContainer.Resolve | frontend/src/App.jsx:225-237 | loading ends; an accepted session keeps its decoded challenges in order, and an error is kept instead of data |
| Session.SessionContainer.Render | frontend/src/App.jsx:248-262 | spinner iff loading; error iff settled with an error; a render fault iff the index is past an (empty) challenge array or the current challenge is a calculator without an input array; a live screen only for a live current challenge |
| Session.SessionContainer.HandleStepComplete | frontend/src/App.jsx:239-246 | the container's progress takes exactly one `StepComplete` step |
| Session.LearningModal.constructor | frontend/src/App.jsx:181 | the modal starts on the video |
| Session.LearningModal.Ready | frontend/src/App.jsx:191 | the ready button switches to the session |
| QuestionBank.ConfigFor | frontend/src/utils/questionBank.js:10-25 | credit and stocks get their own config; every other key gets budgeting |
| QuestionBank.StaticBank | frontend/src/utils/questionBank.js:78-140 | two questions for every key, each with 4 choices, an answer index in range and 2 hints; credit and stocks get their own sets and every other key the budgeting set |
| QuestionBank.GetQuestionBank | frontend/src/utils/questionBank.js:61-76 | the generated reply is used iff its content is a non-empty string that parses to a non-empty array; every other outcome gives the static set |
| QuestionBank.BankNeverEmpty | frontend/src/utils/questionBank.js:61-140 | the result is never empty |
| QuestionBank.UnknownKeyFallsBackToBudgeting | frontend/src/utils/questionBank.js:25 | an unknown key uses the budgeting config and, on failure, the budgeting questions |
| LearningView.Label | frontend/src/components/Learning/LearningView.jsx:145 | Check iff not submitted; Next iff submitted before the last question; Done iff submitted on the last |
| LearningView.DisabledOnlyOnCheck | frontend/src/components/Learning/LearningView.jsx:143-145 | the primary button (`PrimaryDisabled`) is disabled only while it reads Check, and then exactly when nothing is picked |
| LearningView.HintIndex | frontend/src/components/Learning/LearningView.jsx:114 | the index is a valid hint index, and 0 while at most one attempt is recorded |
| LearningView.HintText | frontend/src/components/Learning/LearningView.jsx:114 | the hint is never empty, and is the indexed hint when that one exists and is non-empty |
| LearningView.VerdictFor | frontend/src/components/Learning/LearningView.jsx:110-124 | no verdict before a submission; "Correct!" iff submitted with the right pick (`IsCorrect`); otherwise "Not quite." with the non-empty hint for the attempts |
| LearningView.LearningPage.Render | frontend/src/components/Learning/LearningView.jsx:36-59 | loading state iff loading; "no questions" iff loaded with an empty bank; otherwise the current question |
| LearningView.LearningPage.constructor | frontend/src/components/Learning/LearningView.jsx:5-10 | loading, empty bank, first question, nothing chosen or submitted |
| LearningView.LearningPage.Loaded | frontend/src/components/Learning/LearningView.jsx:13-27 | loading ends with the bank received, or an empty bank on failure or null |
| LearningView.LearningPage.Choose | frontend/src/components/Learning/LearningView.jsx:103 | the picked choice is recorded; nothing else changes |
| LearningView.LearningPage.Press | frontend/src/components/Learning/LearningView.jsx:129-143 | callable only while the button is enabled (`PrimaryDisabled` false); Check submits, counts a pick that is not `IsCorrect` as one attempt and shows "Correct!" or the hint; Next moves one question on with the state cleared; Done asks to leave and changes nothing; at most one attempt per question is kept |
| LearningView.LearningPage.Restart | frontend/src/components/Learning/LearningView.jsx:29-33 | back to the first question; the answer state resets only if the index changed |
| LearningView.LearningPage.HintIsFirst | frontend/src/components/Learning/LearningView.jsx:114 | the hint shown is always the first one |
| UserModel.TrimStart | backend/models/User.js:9 | a suffix of the input that starts with a non-space, with only spaces removed |
| UserModel.TrimEnd | backend/models/User.js:9 | a prefix of the input that ends with a non-space, with only spaces removed |
| UserModel.Trim | backend/models/User.js:9 | the slice of the input that has only white space around it and none at its own ends |
| UserModel.TrimIdempotent | backend/models/User.js:9 | trimming twice is trimming once |
| UserModel.Lower | backend/models/User.js:8 | same length, each character lower-cased |
| UserModel.LowerTrimCommute | backend/models/User.js:8-9 | lower-casing and trimming commute |
| UserModel.Normalize | backend/models/User.js:8-9 | the stored form is the lower-cased input with the white space around it cut off: no capitals, no space at either end, no longer than the input |
| UserModel.NormalizedIffFixed | backend/models/User.js:8-9 | an email is in stored form iff normalising leaves it unchanged |
| UserModel.NormalizeIdempotent | backend/models/User.js:8-9 | normalising twice is normalising once |
| UserModel.NewUser | backend/models/User.js:3-20 | missing numbers take 0 and 1000 and the email is normalised; accepted iff the normalised email is non-empty and both numbers are non-negative; an accepted record is valid |
| UserModel.Revalidate | backend/models/User.js:11-20 | a save succeeds iff points and coins are non-negative; when both are negative the model names the points error (its own choice of order) |
| UserRoutes.Status | backend/routes/users.js:23 | 404 iff not found, 400 for every other refusal |
| UserRoutes.OrNumber | backend/routes/users.js:36-37 | a missing or zero number falls back to the default |
| UserRoutes.SaveKeepsValid | backend/models/User.js:7 | saving a valid record under its email keeps emails unique and every record valid |
| UserRoutes.UserStore.TopByPoints | backend/routes/users.js:8-10 | min(n, #users) distinct stored records, in non-increasing points, none left out with more points than any listed |
| UserRoutes.UserStore.Leaderboard | backend/routes/users.js:6-16 | the top 50 by points, as above |
| UserRoutes.UserStore.Get | backend/routes/users.js:19-29 | the stored record iff present, else not found |
| UserRoutes.UserStore.Create | backend/routes/users.js:32-44 | falsy-value defaults (an explicit 0 coins becomes 1000), schema refusal, duplicate refusal, otherwise exactly one record added |
| UserRoutes.UserStore.Update | backend/routes/users.js:47-62 | not found leaves the store unchanged; only the numbers given change; an invalid result is refused without change |
| UserRoutes.UserStore.DeductCoins | backend/routes/users.js:65-83 | not found or insufficient coins leave the store unchanged; otherwise exactly `amount` comes off that record and nothing else changes |
| UserRoutes.UserStore.AddCoins | backend/routes/users.js:86-100 | not found or a balance that would go negative leave the store unchanged; otherwise exactly `amount` is added |
| Profile.RankOf | frontend/src/components/Profile/Profile.jsx:15-16 | absent iff no entry has the email; otherwise the 1-based position of the first entry with it |
| Profile.LeaderRanksFirst | frontend/src/components/Profile/Profile.jsx:15-16 | the leader's rank is 1 |
| Profile.RankState.constructor | frontend/src/components/Profile/Profile.jsx:5-7 | no rank, 0 users, loading |
| Profile.RankState.FetchRank | frontend/src/components/Profile/Profile.jsx:10-23 | without an email nothing changes and loading stays on; a failed fetch only ends loading; otherwise rank and size come from the board |
| Profile.ProgressLevel | frontend/src/components/Profile/Profile.jsx:48-54 | each level holds exactly on its range: >=1000, >=500, >=200, >=50, else Novice; the next level is one up |
| Profile.LevelMonotone | frontend/src/components/Profile/Profile.jsx:48-54 | more points never mean a lower level |
| Profile.NextAtAhead | frontend/src/components/Profile/Profile.jsx:48-54 | below Expert the next threshold is ahead, and reaching it reaches the next level |
| Profile.ProgressWidth | frontend/src/components/Profile/Profile.jsx:140 | the width lies in [0, 100] for non-negative points and is 100 at the threshold |
| Profile.ProgressTextFor | frontend/src/components/Profile/Profile.jsx:146-149 | "Max level achieved!" iff points >= 2000; otherwise the positive number of points still needed |
| Profile.GetAchievements | frontend/src/components/Profile/Profile.jsx:36-46 | an achievement is listed iff its condition holds, in the fixed order |
| Profile.ChampionIsTopTen | frontend/src/components/Profile/Profile.jsx:42-43 | a champion is also in the top ten |
| Redeem.OffersWellFormed | frontend/src/components/Redeem/Redeem.jsx:6-79 | offer ids are unique and every cost is positive |
| Redeem.Label | frontend/src/components/Redeem/Redeem.jsx:137 | "Redeeming..." iff this offer is the one redeeming |
| Redeem.ButtonDisabledReasons | frontend/src/components/Redeem/Redeem.jsx:135-137 | a button (`ButtonDisabled`) is disabled iff the offer costs more than the balance or its label reads "Redeeming..." |
| Redeem.RedeemingButtonDisabled | frontend/src/components/Redeem/Redeem.jsx:135-137 | an offer showing "Redeeming..." has its button disabled (`ButtonDisabled`) |
| Redeem.RedeemPage.constructor | frontend/src/components/Redeem/Redeem.jsx:4 | nothing redeeming, pending or paid |
| Redeem.RedeemPage.HandleRedeem | frontend/src/components/Redeem/Redeem.jsx:81-97 | on a button not marked as redeeming: refused, with nothing changed, iff the balance is below the cost; otherwise the offer is marked and its timer starts; either way its button is then disabled |
| Redeem.RedeemPage.TimerFired | frontend/src/components/Redeem/Redeem.jsx:90-96 | the cost of that redemption is paid once, the mark is cleared and it is no longer pending; every started redemption is pending or paid exactly once |

## Left out

- The network: the Cohere request, the Groq SDK call and the API wrappers. Their outcomes are inputs (`FetchOutcome`, `GroqOutcome`, an optional board), and `JSON.parse` is an oracle function.
- Decoding a parsed challenge object into a typed `Challenge` is a function parameter of `Session.SessionContainer.Resolve`. A field that is not an array is `None`, and so is a missing scenario `challenge` or outcome. A quiz question that is `null` ("Loading question...") and a scenario `challenge` whose `options` is not an array are not modelled.
- LearningView.LearningPage.Loaded: receives typed questions. A generated item without a `choices` array passes `getQuestionBank` and makes the render at LearningView.jsx:97 throw; that crash is not modelled.
- Timers and React machinery: `setInterval`, `setTimeout`, `useEffect` and `useMemo` become explicit events and method calls. React keeps a sub-component's state when two consecutive challenges have the same type, so in the source the second starts on the first one's last question or outcome. The model starts each challenge's sub-machine afresh and does not capture that carry-over.
- `Session.SessionContainer.HandleStepComplete` requires that nothing has been reported yet. The modal closes on the first report, so the source never reaches a second one.
- Floating point: numbers are exact reals. IEEE rounding, the SVG path text and `formatPct` are not modelled.
- Rendering only: the chart panels, guide lines, CSS, emojis, colours, alerts and the leaderboard page.
- The lookup of the winner's and loser's module record by key (App.jsx 112-113) is display only.
- Object keys are modelled as plain map keys. A key such as `"constructor"` reaching `Object.prototype` is not modelled.
- UserModel.Lower: lower-cases ASCII letters only. JavaScript's `toLowerCase` also maps other scripts.
- UserRoutes.UserStore.Get, Update, DeductCoins, AddCoins: the email in the path is looked up in normalised form, as the schema's lower-case and trim setters also apply to query values. A store that does not normalise queries would answer "not found" for a differently cased email.
- The database: `find`, `sort`, `save` and the unique index are an in-memory map. The interleaving of concurrent requests between `findOne` and `save` is not modelled, and neither are `createdAt`, `null` or non-numeric bodies.
- UserRoutes.UserStore.TopByPoints: users with equal points may come in any order; the database's tie order is not modelled.
- LearningView: a change of module key on a mounted page (which reloads the bank) is not modelled; each page serves one module.
- Redeem.RedeemPage: what the parent does with `onRedeemSuccess` is not part of this model, and neither is whether the callback is supplied (assumed present). The guard reads the balance shown at click time, so offers clicked within 1.5 s of each other are each checked against the same balance.
- Profile: the join date and the `user.sub` branch are display only.

## Findings

| source | as written | input that shows it | evidently intended | confidence | as-written member | corrected member |
|---|---|---|---|---|---|---|
| frontend/src/App.jsx:65 | the prompt asks for scenario choices shaped `{text, outcome, xp}`, but the component reads `choice.challenge` (lines 330, 361, 363) and `choice.outcomes` (line 377) | a scenario generated as the prompt asks: picking any branch throws a TypeError and the session can never finish | prompt and component agree on one schema, the one the component reads | medium, not executed | Challenges.PromptShapedScenarioStuck | Challenges.ReadableScenarioReports |
| frontend/src/App.jsx:277 | the initial slider values call `data.inputs.forEach` before the `Array.isArray(data.inputs)` guard at lines 284-286 | a calculator challenge whose `inputs` is missing or not an array: the render throws a TypeError instead of showing "Loading calculator..." | the guard protects the whole component, so a malformed calculator shows the placeholder | high, not executed | Challenges.CalculatorViewAsWritten | Challenges.CalculatorView |

`Challenges.View` and the session follow the source as written; `Challenges.IntendedView` is the corrected whole-challenge view.
