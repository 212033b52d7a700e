# QuizGen AI quiz engine, modelled in Dafny

This project models the client-side quiz engine of QuizGen AI, a React
application in which a generator writes a quiz on a topic and the player
answers it in one of several game modes (classic, arcade, TV show, speed run,
with or without several players taking turns).

One Dafny module stands for each part of the engine:

- `Types` holds the shared records: questions, quizzes, the setup
  configuration, recorded answers and final scores.
- `Strings` gives JavaScript's `trim`, `toLowerCase` and `includes` the meaning
  the engine relies on.
- `QuizGame` holds the rules of a game and the class `Session`, which covers
  one play-through:
  - the countdown;
  - option selection and fill-in typing;
  - confirming, skipping and the matching board;
  - the eliminate and time-freeze power-ups;
  - moving to the next question, and the completion callback.

  Each event handler is a method that updates the session's fields. The
  session invariant `Valid` says what always holds:
  - lives stay within 0..3 and power-up counts within 0..1;
  - the timer stays within its limit;
  - eliminated options are wrong options of the current question;
  - the matching board belongs to the current question;
  - a solved board has been recorded.
- `App` is the screen state machine and the story-mode progression through the
  four arcade worlds. The quiz generator is a function parameter that returns
  a quiz or a failure.
- `QuizResults` covers the results screen: the tally of correct answers, the
  rounded percentage and its message, the per-question marks, and which score
  panels are shown.
- `QuizSetup` covers the setup form: its bounded player list and the
  configuration it submits.
- `QuizCreator` covers the hand-written quiz editor: its list edits and the
  validation on save.

## Model

| member | source | states |
|---|---|---|
| QuizGame.DifficultyLimit | components/QuizGame.tsx:11-15 | 45, 30 or 15 seconds for easy, medium and hard, always a multiple of 15 |
| QuizGame.TimeLimit | components/QuizGame.tsx:76 | a speed run, and only a speed run, gets 60 s; every other mode gets its difficulty's limit, whatever the arcade map |
| QuizGame.EffectiveTheme | components/QuizGame.tsx:89-100 | an arcade quiz with a map takes the map's theme; every other quiz keeps its own |
| QuizGame.ConfirmLedger | components/QuizGame.tsx:387-399 | a correct confirmation scores for the session in arcade, TV show and solo speed run, and for the current player in other multiplayer games; nothing else scores |
| QuizGame.MatchingLedger | components/QuizGame.tsx:302-310 | a solved board scores for the session in arcade and TV show, and for the current player in other multiplayer games; a solo speed run earns nothing |
| QuizGame.ClassicSoloScoresNothing | components/QuizGame.tsx:389-399 | a solo classic game never credits points, either on confirm or for matching |
| QuizGame.FinalScore | components/QuizGame.tsx:458-461 | the final score is the per-player list exactly when the quiz is multiplayer |
| QuizGame.ExpectedText | components/QuizGame.tsx:376 | the expected fill-in text is exactly the first option lower-cased, or empty when there are no options |
| QuizGame.ChoiceValue | components/QuizGame.tsx:380 | the recorded choice is the selection, or -1 when nothing is selected |
| QuizGame.Evaluate | components/QuizGame.tsx:350-384 | a matching question records -1 and is wrong; a fill-in question records the raw text and is right iff it matches the expected text; a choice question records the choice and is right iff it equals the correct index |
| QuizGame.FillInIgnoresCaseAndPadding | components/QuizGame.tsx:362-377 | two inputs with the same trimmed, lower-cased form get the same fill-in verdict |
| QuizGame.FillInAcceptsVariants | components/QuizGame.tsx:362-377 | an unpadded expected word is also accepted with a trailing space or in lower case |
| QuizGame.ShownCorrectAsWritten | components/QuizGame.tsx:749-753 | the screen's correctness flag; for a fill-in question whose recorded answer is -1 it throws |
| QuizGame.ShownCorrect | components/QuizGame.tsx:749-753 | agrees with the flag as written wherever that does not throw, and reads a non-text fill-in answer as not correct |
| QuizGame.ShownCorrectAgreesWithConfirm | components/QuizGame.tsx:749-753 | after a fill-in answer is confirmed, the screen's flag equals the confirm verdict |
| QuizGame.SkippedFillInCrashesScreen | components/QuizGame.tsx:752 | a skipped fill-in question (answer -1) makes the screen's flag throw |
| QuizGame.FillInCorrect | components/QuizGame.tsx:362-377 | with an expected text, a fill-in answer is right iff its trimmed, lower-cased form equals it; with none, iff the lower-cased explanation contains that form, so a blank answer is always right |
| QuizGame.ShownTimeout | components/QuizGame.tsx:755-759 | the timeout banner: time up and, by question type, no recorded matching answer, a fill-in question not yet answered, or no selection; it is never shown with the skipped banner |
| QuizGame.ShownSkipped | components/QuizGame.tsx:761-767 | the skipped banner: an answered question in time and, by question type, a recorded -1, a recorded empty text, or no selection |
| QuizGame.Session.BannersAfterSkip | components/QuizGame.tsx:755-767 | after a classic skip the timeout banner is off; the skipped banner is on for a matching question and an unselected choice question, never for a fill-in question |
| QuizGame.Session.BannersAfterTimeOut | components/QuizGame.tsx:755-767 | after a timeout outside a speed run the skipped banner is off; the timeout banner is on for an unanswered matching question and an unselected choice question, never for a fill-in question |
| QuizGame.PairCount | components/QuizGame.tsx:299 | the number of pairs, 0 when the question has none |
| QuizGame.Rights | components/QuizGame.tsx:144 | the right-hand texts of the pairs, in order |
| QuizGame.RightMap | components/QuizGame.tsx:149-153 | every right text is a key, and it maps to the left text of one of its pairs |
| QuizGame.BuildRightOptionMap | components/QuizGame.tsx:150-153 | the loop over the pairs builds exactly the validation map |
| QuizGame.RightMapFitsPairs | components/QuizGame.tsx:290-291 | with distinct right texts, a right item fits a left item iff the two form one of the question's pairs |
| QuizGame.WrongIndicesBelow | components/QuizGame.tsx:335 | exactly the option indices other than the correct one; there is one fewer than the option count when the correct index is in range |
| QuizGame.PlayerNamesOf | components/QuizGame.tsx:52 | the quiz's player names when it has them, otherwise "Jogador 1" and "Jogador 2" |
| QuizGame.NextPlayer | components/QuizGame.tsx:444 | the next player is in range and wraps from the last player to the first |
| QuizGame.SumUpdate | components/QuizGame.tsx:305-308 | adding points to one player's score adds exactly those points to the total |
| QuizGame.Credited | components/QuizGame.tsx:302-310 | crediting adds exactly the points to the chosen ledger (the session score or the current player's score), moves no other ledger, and never touches lives or other players |
| QuizGame.AfterVerdict | components/QuizGame.tsx:386-405 | a right answer adds 100 to the session score in arcade, TV show and solo speed run, to the current player's score in other multiplayer games, and to nothing otherwise, keeping the lives; a wrong answer leaves every score and, in modes with lives, sets the lives to one less floored at 0; no score decreases |
| QuizGame.Session.constructor | components/QuizGame.tsx:43-78 | a fresh session: first question, 3 lives, zero scores, one of each power-up, a full timer, an empty board, and the invariant holds |
| QuizGame.Session.SelectOption | components/QuizGame.tsx:252-256 | selection changes only while unanswered and not timed out, and never to an eliminated option |
| QuizGame.Session.TypeAnswer | components/QuizGame.tsx:1043-1047 | the fill-in text changes only while unanswered and not timed out |
| QuizGame.Session.Tick | components/QuizGame.tsx:218-247 | a stopped countdown changes nothing; otherwise one second passes, and at the last second time is up: a speed run reports its answers and score, any other mode marks the question answered and costs a life in modes with lives |
| QuizGame.Session.TimeOut | components/QuizGame.tsx:224-243 | the timer ends at 0 with time up; a speed run completes, other modes are marked answered with one life less (floored at 0) in modes with lives |
| QuizGame.Session.Unfreeze | components/QuizGame.tsx:346 | the freeze ends and the invariant is kept |
| QuizGame.Session.MoveToNext | components/QuizGame.tsx:206-215 | next question and, in multiplayer, next player; selection, typed text, answered and frozen flags cleared; timer refilled except in a speed run |
| QuizGame.Session.SetUpBoard | components/QuizGame.tsx:142-160 | a matching question gets the caller's shuffle, the validation map and an empty board; any other question loses its eliminated options; the invariant is restored |
| QuizGame.Session.EnterNextQuestion | components/QuizGame.tsx:436-450 | the question change with both reset effects, keeping the invariant |
| QuizGame.Session.AdvanceReporting | components/QuizGame.tsx:423-464 | out of lives: report the score and stay; a next question: move to it; at the end: report the per-player scores in multiplayer and the score otherwise; scores and lives are untouched |
| QuizGame.Session.Report | components/QuizGame.tsx:458-461 | the completion callback is called once more with the given result |
| QuizGame.Session.NextQuestion | components/QuizGame.tsx:423-464 | the next button: advance, reporting the current answers |
| QuizGame.Session.Confirm | components/QuizGame.tsx:350-411 | an unanswered question records the evaluator's answer and settles score and lives by the verdict, without leaving the question; an answered one advances |
| QuizGame.Session.Settle | components/QuizGame.tsx:351-406 | the answer is recorded under the question id, the question is answered, and score, player scores and lives follow the verdict |
| QuizGame.Session.Skip | components/QuizGame.tsx:258-276 | nothing happens once answered or timed out; competitive play with a skip left spends it, records -1 and advances; with none left nothing changes; other modes record -1 and mark the question answered; power-ups never increase |
| QuizGame.Session.SpendSkip | components/QuizGame.tsx:262-270 | one skip fewer, -1 recorded, and the session advances reporting the answers as they were before the skip |
| QuizGame.Session.TakeSkip | components/QuizGame.tsx:264-267 | exactly one skip spent and -1 recorded for the question |
| QuizGame.Session.MarkSkipped | components/QuizGame.tsx:273-274 | the question is answered with -1 and nothing else changes |
| QuizGame.Session.MatchingSelect | components/QuizGame.tsx:278-327 | ignored once answered or timed out; a left click toggles the pending item unless it is matched; a right click with no pending item is ignored; a fitting right click adds the pair and, on the last pair, solves the question for 500 points; a wrong one clears the pending item and costs 5 s (floored at 0) in competitive play |
| QuizGame.Session.SelectLeft | components/QuizGame.tsx:281-284 | a matched item is ignored; the pending item is deselected; any other item becomes pending |
| QuizGame.Session.Mismatch | components/QuizGame.tsx:313-324 | the pending item is cleared and competitive play loses 5 s, never below 0 |
| QuizGame.Session.Match | components/QuizGame.tsx:289-312 | the pending left item joins the matched items; completing the board records 1 and credits 500 to the matching ledger, otherwise nothing else changes |
| QuizGame.Session.PartialMatch | components/QuizGame.tsx:291-296 | the pending item joins the matched items without duplicates, and the invariant is kept |
| QuizGame.Session.CompleteMatch | components/QuizGame.tsx:298-311 | the last pair: the question is answered, the answer 1 recorded, and 500 points credited |
| QuizGame.Session.UsePowerUp | components/QuizGame.tsx:329-348 | with a count left and the question open, eliminate hides the first two wrong options of a multiple-choice question and time freeze freezes the countdown, each spending one of its own count only; otherwise nothing changes |
| QuizGame.Session.MatchedWithinPairs | components/QuizGame.tsx:289-312 | a board never holds more matched items than the question has pairs |
| QuizGame.Session.CorrectNeverEliminated | components/QuizGame.tsx:335-338 | the correct option of a multiple-choice question is never eliminated |
| Strings.Trim | components/QuizGame.tsx:362 | the result is a piece of the input with only white space before and after it, has no leading or trailing white space itself, and is empty iff the input is blank |
| Strings.Lower | components/QuizGame.tsx:362 | same length, each character lower-cased |
| Strings.Contains | components/QuizGame.tsx:377 | true iff the needle occurs at some position of the haystack |
| Strings.LowerTrim | components/QuizGame.tsx:362 | lower-casing and trimming commute |
| Types.PlayerLabel | components/QuizSetup.tsx:29 | a default label is "Jogador " followed by the decimal numeral of the number |
| Types.PlayerLabelInjective | components/QuizSetup.tsx:29 | different numbers give different default labels |
| Strings.NatStringRoundTrip | components/QuizSetup.tsx:29 | reading back the numeral of a number gives the number |
| App.StartErrorMessage | App.tsx:50 | the failure's own message when it has one, the default message otherwise; never empty |
| App.StoryStart | App.tsx:33-38 | a story configuration starts in the first world; nothing else in the configuration changes |
| App.WorldConfig | App.tsx:86 | the original configuration, set in the requested world and otherwise unchanged |
| App.ReachesHalf | App.tsx:68-79 | with no questions, only a positive score advances |
| App.HalfThreshold | App.tsx:68-79 | with questions, a story score advances iff it is at least 50 points per question |
| App.HalfOfFiveQuestions | App.tsx:79 | 50% exactly advances: 250 of 500 points do, 249 do not |
| App.Application.constructor | App.tsx:15-24 | the home screen with no quiz, no result, no error and the first world |
| App.Application.OpenSetup | App.tsx:135 | the home page's start button opens the setup form |
| App.Application.CreateQuiz | App.tsx:55-57 | the creator is shown |
| App.Application.CancelCreate | App.tsx:143 | cancelling the creator returns home |
| App.Application.ContinueFromCutscene | App.tsx:154 | the cutscene's button starts the quiz |
| App.Application.StartQuiz | App.tsx:27-53 | the topic is kept and the result cleared; a story run restarts in the first world and saves its configuration; a generated quiz is shown (through its cutscene when it is a story with a narrative); a failure shows its message |
| App.Application.SaveCreatedQuiz | App.tsx:59-62 | the created quiz is played |
| App.Application.QuizComplete | App.tsx:64-114 | answers and score are kept; a story score of at least half before the last world loads the next world (or shows the fixed error); everything else shows the results with the world unchanged; the world index stays within the four worlds |
| App.Application.Retry | App.tsx:116-120 | answers and score are cleared and the same quiz is played again |
| App.Application.GoHome | App.tsx:122-128 | quiz, answers, score and error are cleared and the home page is shown |
| QuizResults.IsCorrect | components/QuizResults.tsx:16-25 | a matching question counts iff its recorded answer is 1; any other question counts iff its recorded answer is a choice equal to the correct index, or, unanswered, iff it has no correct index |
| QuizResults.IsSkipped | components/QuizResults.tsx:153-160 | a question is skipped iff it has no recorded answer or the answer -1 |
| QuizResults.MarkOf | components/QuizResults.tsx:165-172 | a question is marked right iff it counts as correct, skipped iff it is not correct but has no answer or -1, and wrong otherwise |
| QuizResults.WrittenNeverCounted | components/QuizResults.tsx:21 | a typed fill-in answer is never counted as correct, nor as skipped |
| QuizResults.CorrectAndSkipped | components/QuizResults.tsx:153-160 | a question is both correct and skipped only when it lacks both a correct index and an answer, or its correct index is -1 |
| QuizResults.AgreesWithConfirm | components/QuizResults.tsx:16-25 | for a choice question the results screen agrees with the verdict given on confirm |
| QuizResults.SolvedBoardCounts | components/QuizResults.tsx:18-19 | a solved matching board counts as correct |
| QuizResults.CountCorrect | components/QuizResults.tsx:16-25 | the tally never exceeds the number of questions |
| QuizResults.TallyCorrect | components/QuizResults.tsx:16-25 | the counting loop returns the number of questions that count as correct |
| QuizResults.AllCorrectIff | components/QuizResults.tsx:16-25 | the tally equals the number of questions iff every question counts |
| QuizResults.TallyMatchesMarks | components/QuizResults.tsx:152-172 | the tally equals the number of questions marked right, and every question gets exactly one mark |
| QuizResults.Percentage | components/QuizResults.tsx:27 | NaN for an empty quiz; otherwise a value in 0..100 within half a point of the exact ratio, halves rounded up |
| QuizResults.PerfectIffAll | components/QuizResults.tsx:27 | with fewer than 200 questions, 100% is shown iff every answer counts |
| QuizResults.NearlyPerfectRoundsUp | components/QuizResults.tsx:27 | 200 of 201 correct answers are shown as 100% |
| QuizResults.BandOf | components/QuizResults.tsx:66-71 | each message band holds exactly its range of percentages; NaN gets the lowest |
| QuizResults.BandMonotone | components/QuizResults.tsx:66-71 | a higher percentage never gets a worse message |
| QuizResults.ScoreboardNeverShown | components/QuizResults.tsx:110 | the scoreboard as written is never shown |
| QuizResults.ScoreboardShownForMultiplayer | components/QuizResults.tsx:110 | keyed on the multiplayer flag, a finished session shows the scoreboard iff it is multiplayer |
| QuizResults.ModeName | components/QuizResults.tsx:110 | the string value of each game mode; none of them is "multiplayer" |
| QuizResults.ShowArcadeScore | components/QuizResults.tsx:100 | the arcade panel: arcade mode with a single number as the score; never shown together with the scoreboard |
| QuizResults.ShowScoreboardAsWritten | components/QuizResults.tsx:110 | the scoreboard test as written: a per-player score list under a game mode named "multiplayer" |
| QuizResults.ShowScoreboard | components/QuizResults.tsx:110 | the corrected scoreboard test: a per-player score list in a multiplayer session; wherever it holds, the test as written fails |
| QuizResults.ArcadeScoreShownForSoloArcade | components/QuizResults.tsx:100 | a finished session shows the arcade score panel iff it is a solo arcade session |
| QuizResults.RowName | components/QuizResults.tsx:119 | a row shows the player's name when it is present and non-empty, and "Jogador n" numbered from 1 in every other case; never an empty name |
| QuizResults.Scoreboard | components/QuizResults.tsx:117-122 | one row per player score, in order, with that player's name |
| QuizSetup.NumberedDistinct | components/QuizSetup.tsx:24 | default player labels are pairwise distinct |
| QuizSetup.SetupForm.constructor | components/QuizSetup.tsx:13-25 | the form's defaults, with two numbered players |
| QuizSetup.SetupForm.AddPlayer | components/QuizSetup.tsx:27-31 | below four players the next numbered label is appended; at four nothing changes; 2..4 players is kept |
| QuizSetup.SetupForm.RemovePlayer | components/QuizSetup.tsx:33-37 | above two players the last is dropped; at two nothing changes; 2..4 players is kept |
| QuizSetup.SetupForm.RenamePlayer | components/QuizSetup.tsx:39-43 | only the given entry changes |
| QuizSetup.SetupForm.Submitted | components/QuizSetup.tsx:84-109 | nothing for a blank topic; otherwise the form's fields, TV mode iff the TV show mode, story only in arcade, a map only in arcade (the first world for a story), and player names iff multiplayer |
| QuizSetup.SetupForm.SubmittedIsConsistent | components/QuizSetup.tsx:103-105 | a story configuration is an arcade one starting in the first world, and a multiplayer one names two to four players |
| QuizCreator.BlankQuestion | components/QuizCreator.tsx:30-37 | a multiple-choice question with empty text, four empty options and the first option correct |
| QuizCreator.AddedAsWritten | components/QuizCreator.tsx:27-39 | the list with a blank question appended under id length + 1, earlier questions unchanged |
| QuizCreator.DuplicateIdAfterRemoval | components/QuizCreator.tsx:31 | removing the first of two questions and adding one gives two questions with id 2 |
| QuizCreator.FreshId | components/QuizCreator.tsx:31 | an id no question in the list has |
| QuizCreator.AddKeepsIdsUnique | components/QuizCreator.tsx:27-39 | adding with a fresh id keeps ids unique |
| QuizCreator.MaxId | components/QuizCreator.tsx:31 | an id at least every question's id, 0 for an empty list |
| QuizCreator.Removed | components/QuizCreator.tsx:43 | the filtered list is no longer than the original and holds only its questions |
| QuizCreator.RemovedIsSplice | components/QuizCreator.tsx:43 | the filter splices out an index in range and keeps the list for any other index |
| QuizCreator.RemovedKeepsIdsUnique | components/QuizCreator.tsx:41-46 | removal keeps ids unique |
| QuizCreator.Apply | components/QuizCreator.tsx:48-52 | an edit changes only its own field of the question |
| QuizCreator.FirstProblem | components/QuizCreator.tsx:69-78 | the validation result is one of the two question messages or nothing |
| QuizCreator.FirstProblemNoneIff | components/QuizCreator.tsx:69-78 | validation passes iff every question has non-blank text and options |
| QuizCreator.CreatedQuiz | components/QuizCreator.tsx:80-89 | the saved quiz carries the title, topic, difficulty and questions, and is classic, light, not TV and single-player |
| QuizCreator.Creator.constructor | components/QuizCreator.tsx:13-25 | an empty header and one blank question with id 1 |
| QuizCreator.Creator.AddQuestion | components/QuizCreator.tsx:27-39 | a blank question with a fresh id is appended; ids stay unique |
| QuizCreator.Creator.RemoveQuestion | components/QuizCreator.tsx:41-46 | with more than one question the index is filtered out; the list is never empty and ids stay unique |
| QuizCreator.Creator.ChangeQuestion | components/QuizCreator.tsx:48-52 | only the edited question changes, by the edit |
| QuizCreator.Creator.ChangeOption | components/QuizCreator.tsx:54-60 | only the targeted option of the targeted question changes |
| QuizCreator.Creator.Save | components/QuizCreator.tsx:62-92 | a blank title or topic gives the header message; otherwise the first question problem in list order; otherwise the created quiz |
| QuizCreator.SavedQuizIsPlayable | components/QuizCreator.tsx:62-91 | a saved quiz has at least one question and every question complete; its ids are unique because questions are added under fresh ids |

## Left out

- Presentation: theme styles, timer colours, progress dots, the cutscene, home page, loading screen and buttons. They draw state and do not change it.
- QuizGame.Session.Tick: the TV curtains are not modelled. They are closed until 500 ms after the quiz screen mounts, and closed again only when the last question is left, just before the delayed report. The countdown stands still while they are closed. The model assumes countdown ticks arrive only while the curtains are open.
- Sound, background music and speech: browser side effects.
- Wall-clock scheduling: each countdown second, the end of a freeze, a question change and a click is a separate call, and the 300/50/500/1500 ms delays are not modelled. The transition flag is therefore always false between calls. The speed-run auto-advance is the caller calling `NextQuestion`. Nothing is claimed about two advances racing.
- Randomness: the shuffle of right-hand texts and the random pick of options to eliminate are parameters. The contracts hold for any permutation the caller passes.
- The quiz generator (a network service) is the function parameter `generate`, left unconstrained beyond the story flag. The real generator (services/geminiService.ts:172-182) builds its quiz from the service's answer plus the form's topic, difficulty, theme, TV, mode, multiplayer, story and map fields. It never copies the player names, and the answer's schema has none. So in the running application `playerNames` is absent, a multiplayer game always plays as "Jogador 1" and "Jogador 2", and the names added, removed or renamed in the setup form never reach play. The model's `generate` may pass names through, so the name branch of `QuizResults.RowName` and rounds of three or four players are reachable in the model but not in the application.
- Percentages use exact rationals, so floating-point rounding at .5 boundaries is not modelled.
- `toLowerCase` is modelled for ASCII and Latin-1 letters only.
- The form's plain field setters (topic, difficulty, count, theme, mode and the rest) are direct assignments and are not modelled as methods.
- QuizGame.Session.constructor: requires at least one question and a non-empty player list when one is given. With no questions the source fails on its first render. With an empty list, its player rotation divides by zero.
- QuizGame.Session.UsePowerUp: an absent `options` list is the empty sequence. Where the source throws on `options!` before it updates the counts, the model eliminates nothing but still spends one eliminate.
- QuizGame.Session.Skip: reports the answers as they were before the skip, as the source's handler does when it calls the next-question handler in the same step.
- QuizGame.ShownCorrect: reads a non-text fill-in answer as not correct, where the source throws (see Findings).
- QuizResults.ShowScoreboard: is keyed on the multiplayer flag, where the source tests a game mode that does not exist (see Findings).
- QuizCreator.Creator.AddQuestion: uses a fresh id, not length + 1 (see Findings).
- QuizCreator.SavedQuizIsPlayable: unique ids hold only because the model adds questions under fresh ids. With the source's length + 1 ids, a saved quiz can hold two questions with the same id (see Findings).
- QuizCreator.Creator.ChangeOption: the source copies the question list and the options array, but not the edited question object. It assigns that object's options in place, so the question in the previous list shares the change. The model's lists are values, so this aliasing is not captured.
- App.Application.StartQuiz: requires a generator that copies the story flag of its configuration into the quiz, as the generator does.
- App.Application.QuizComplete: requires a generator that copies the story flag. It also requires that a story quiz remembers its original configuration. The source spreads `originalConfig!`, which for a missing configuration would request a world with an otherwise empty configuration.
- App.Application.SaveCreatedQuiz: requires that a story quiz already has an original configuration. Quizzes built in the creator are never story quizzes.

## Findings

| source | as written | input that shows it | evidently intended | confidence | as-written member | corrected member |
|---|---|---|---|---|---|---|
| components/QuizResults.tsx:110 | the final scoreboard is shown only when the game mode equals "multiplayer", which no game mode does | any multiplayer quiz that finishes with a per-player score list | show the scoreboard for every multiplayer session | not executed | QuizResults.ScoreboardNeverShown | QuizResults.ScoreboardShownForMultiplayer |
| components/QuizCreator.tsx:31 | a new question's id is the list length plus one | start with questions 1 and 2, remove the first, add a question: two questions have id 2 and share one slot in the answer map | every question has its own id | not executed | QuizCreator.DuplicateIdAfterRemoval | QuizCreator.AddKeepsIdsUnique |
| components/QuizGame.tsx:752 | the correctness flag calls `trim` on any truthy recorded fill-in answer, but a classic skip records -1 | a classic quiz with a fill-in question: press skip | a skipped fill-in question reads as not correct | not executed | QuizGame.SkippedFillInCrashesScreen | QuizGame.ShownCorrect |
