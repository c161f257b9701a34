# Quiz session state machine

A Dafny model of the discrete state machine inside the `Quiz` screen of the
ignitequiz app (`src/screens/Quiz/index.tsx`). The screen shows one
multiple-choice question at a time. It scores the confirmed alternative and
moves to the next question. When the last question is done, it writes one
history record and navigates to the finish screen. It also turns a long
left swipe of the question card into a skip request.

The session state is `points`, `currentQuestion`, `alternativeSelected`
(`null | number`), `statusReply` (0 neutral, 1 correct, 2 incorrect) and the
card offset `cardPosition`. The screen changes that state through these handlers:

- `handleConfirm` scores an answer. With no selection it asks to skip instead.
- `handleNextQuestion` and `handleFinished` advance, and finish on the last question.
- `handleSkipConfirm` and `handleStop` open the "Pular" and "Parar" alerts.
- The pan gesture's `onUpdate` and `onEnd` move the card and may ask to skip.
- The shake sequence's completion callback advances after a wrong answer.
- The effect on `points` advances after a right answer.

Files:

- `wrappers.dfy`: `Option`, standing for `null | number`.
- `quiz_data.dfy` (module `QuizData`): the content types (`Quiz`, `Question`,
  `HistoryRecord`) and the load lookup `QUIZ.filter(...)[0]`.
- `quiz_machine.dfy` (module `QuizMachine`):
  - the whole screen state as a value, `Screen`;
  - one pure transition function per handler;
  - the invariant `Inv` that each transition keeps.

  The side effects are logs inside the value:
  - `history` holds what `historyAdd` received;
  - `dialogs` holds the alerts requested, answered in order;
  - `cues` holds the argument of every `playSound`;
  - `mode` is where the navigator was sent (`Active`, `Finished`, `NavigatedHome`),
    or `Crashed` once the question index has left the question list;
  - `confirmed` holds every confirm that had a selection;
  - `shake` and `pointsChanged` mark the two callbacks still to come.

  A handler that is called later sees the state of the render that created
  it, not the live state. That applies to the shake's completion callback and
  to the "Sim" button of a skip alert. Such a handler is given the
  `Snapshot` (question index and points) of that render. The pending shake
  and each skip alert in the log carry their snapshot.
- `quiz_trace.dfy` (module `QuizTrace`):
  - the events the screen receives, and when each is possible (`Enabled`);
  - `Run`, which applies a sequence of events;
  - lemmas about whole runs: monotonicity, stopping, answering one question,
    playing a whole quiz, and the scenarios below.
- `quiz_screen.dfy` (module `QuizScreen`): class `Session`. Its real fields are
  the React state, the card offset (a Reanimated shared value), the pending
  shake and the open alerts. Its ghost fields are the pending points effect,
  the navigation mode and the logs. Each handler is a method
  that updates the fields in place. Its postcondition says that the new state is
  the `QuizMachine` transition of the old one.

What the invariant `Inv` guarantees in every state reached:

- `0 <= currentQuestion <= questions.length`, and
  `currentQuestion == questions.length` exactly when the screen has crashed:
  the next render indexes `quiz.questions[currentQuestion]` (line 302) past
  the end.
- `points` equals the number of logged confirms whose choice was the correct
  index of the question shown. So `points` never exceeds the number of
  confirms, and never exceeds `currentQuestion + 1`.
- The history is empty while the quiz is on screen and not empty once it has
  finished. Every record in it is a record of this quiz, with points no larger
  than the number of questions.
- The card offset is never positive.
- Every sound cue played is the "correct" one. Both branches of
  `handleConfirm` call `playSound(true)`.

Scheduling assumptions. Each handler runs to completion, with no
interleaving at its `await`s. The effect on `points` runs before any other
event is handled. User input arrives only while the quiz is the front
screen. Callbacks and alert buttons still arrive after navigation to
'finish', because the screen stays mounted under it. Nothing arrives after
navigation home.

Behaviour of the code worth noting:

- `handleConfirm` does not check `statusReply`. So a second confirm while the
  shake of a wrong answer is still running is scored. Its points effect
  advances from the live index. Then the shake's callback runs the
  `handleNextQuestion` of the render that started the shake. Its test (line
  202) still sees the old index, so it passes. The increment (line 203) then
  applies to the live index. The results are proved in `QuizTrace`:
  - Below the second-to-last question, the index rises by 2
    (`ConfirmDuringShakeAdvancesTwice`).
  - On the second-to-last question, the index reaches `questions.length` and
    the screen crashes with nothing recorded (`ConfirmDuringShakeLeavesRange`).
  - On the last question, `historyAdd` is called twice. The first record has
    the new score and the second the score from before the right answer
    (`ConfirmDuringShakeRecordsTwice`), because `handleFinished` records the
    `points` of its render (line 191).
  - A skip alert opened by a confirm with no selection during the shake
    carries the same render. On the second-to-last question, accepting it and
    then the finished shake also crash the screen
    (`SkipDuringShakeLeavesRange`).
- The reply status goes back to neutral when the `Question` view unmounts.
  `handleNextQuestion` does not reset it.
- `historyAdd` is awaited without a `catch`, so a storage failure is not
  turned into a warning. That path is not modelled.

## Model

| member | source | states |
|---|---|---|
| QuizData.FirstMatch | src/screens/Quiz/index.tsx:247 | the index found is the first quiz with the id; none before it has the id |
| QuizData.Lookup | src/screens/Quiz/index.tsx:247 | the lookup finds nothing exactly when no quiz has the id; otherwise it returns the first quiz of the catalogue with that id |
| QuizMachine.Initial | src/screens/Quiz/index.tsx:45-50 | a session starts at question 0 with 0 points, nothing selected and a neutral reply, and satisfies the invariant |
| QuizMachine.CorrectCount | src/screens/Quiz/index.tsx:215-216 | the number of scoring confirms never exceeds the number of confirms |
| QuizMachine.CorrectCountSnoc | src/screens/Quiz/index.tsx:215-216 | one more confirm adds one to the count exactly when its choice is the correct index of its question |
| QuizMachine.SelectAlternative | src/screens/Quiz/index.tsx:305 | selecting sets `alternativeSelected` to the index and changes nothing else |
| QuizMachine.RequestSkip | src/screens/Quiz/index.tsx:179-184 | asking to skip adds one skip alert holding the current render's index and points, and changes nothing else |
| QuizMachine.ScoreChoice | src/screens/Quiz/index.tsx:215-225 | a match adds exactly one point, shows Correct and schedules the points effect; a mismatch keeps the points, shows Incorrect and starts the shake; both log the confirm, play cue `true` and clear the selection, and nothing else changes; the invariant is kept |
| QuizMachine.Confirm | src/screens/Quiz/index.tsx:210-226 | with no selection: exactly one skip alert, and points, question and reply unchanged. With one: points rise by 1 exactly on a match, reply Correct on a match and Incorrect with the shake started otherwise, cue `true`, selection cleared, question, history, mode, card and answered alerts unchanged; the invariant is kept |
| QuizMachine.Finish | src/screens/Quiz/index.tsx:186-199 | appends exactly one record with the points of the render whose handler runs and the question count, and moves to 'finish'; nothing else changes |
| QuizMachine.NextQuestion | src/screens/Quiz/index.tsx:201-208 | the test uses the index of the handler's render and the increment uses the live index. If the test passes: live index +1, no history, and the screen crashes exactly when the index reaches the question count. Otherwise: index unchanged, exactly one record with the render's points. Points unchanged; the invariant is kept |
| QuizMachine.PointsEffect | src/screens/Quiz/index.tsx:252-256 | once the quiz is loaded the effect advances exactly once from the current render and changes nothing but the index, history, mode and its own pending flag; before that it only clears that flag |
| QuizMachine.ShakeSettled | src/screens/Quiz/index.tsx:156-160 | a finished shake advances exactly once, with the index and points of the render that started it, and changes nothing but the index, history, mode and the pending shake; an interrupted one only clears the pending shake |
| QuizMachine.AnswerSkip | src/screens/Quiz/index.tsx:180-182 | "Sim" advances exactly once, with the index and points of the render that opened the alert, and changes nothing but the index, history, mode and the answered count (so a pending shake stays pending); "Não" only marks the alert answered |
| QuizMachine.RequestStop | src/screens/Quiz/index.tsx:228-242 | always reports `true`, adds one stop alert and changes nothing else |
| QuizMachine.AnswerStop | src/screens/Quiz/index.tsx:229-239 | "Sim" navigates home, "Não" does nothing; neither touches history, points or the question |
| QuizMachine.PanUpdate | src/screens/Quiz/index.tsx:81-87 | the card takes the (real-valued) translation exactly when it is negative and is unchanged otherwise |
| QuizMachine.PanEnd | src/screens/Quiz/index.tsx:88-94 | a skip alert is added exactly when the translation is strictly below -200 (`CARD_SKIP_AREA`, line 42); the card is 0 afterwards in every case |
| QuizMachine.QuestionUnmount | src/screens/Quiz/index.tsx:306 | the reply goes back to neutral and nothing else changes |
| QuizTrace.Step | src/screens/Quiz/index.tsx:78-256 | every possible event leads from a valid state to a valid state |
| QuizTrace.StepGrows | src/screens/Quiz/index.tsx:78-256 | no event moves points, the question index or a log backwards, and history changes only on an advance (points effect, finished shake, accepted skip) |
| QuizTrace.Run | src/screens/Quiz/index.tsx:78-256 | every state reached from a valid one by possible events is valid |
| QuizTrace.RunGrows | src/screens/Quiz/index.tsx:201-226 | over any run, points and question index never decrease, and history, alerts, cues and confirms are only appended to |
| QuizTrace.StoppedRunRecordsNothing | src/screens/Quiz/index.tsx:228-242 | a run with no advance ends with empty history, including one that stops and goes home |
| QuizTrace.RightPick | src/screens/Quiz/index.tsx:252-256 | a correct pick and confirm scores 1 and advances once, through the points effect |
| QuizTrace.WrongPick | src/screens/Quiz/index.tsx:151-163 | a wrong pick and confirm scores 0 and advances once, through the finished shake |
| QuizTrace.PassQuestion | src/screens/Quiz/index.tsx:179-184 | confirming with nothing selected and accepting the skip advances once and scores 0 |
| QuizTrace.AnswerAdvancesOnce | src/screens/Quiz/index.tsx:210-226 | each answered question advances exactly once and scores 1 exactly for a correct pick. Below the last question the next one is on screen with no history; on the last, exactly one record with the final points |
| QuizTrace.PlayScores | src/screens/Quiz/index.tsx:186-226 | answering the remaining questions in turn finishes with points = the number of correct picks, and history = one record of those points |
| QuizTrace.PlayWholeQuiz | src/screens/Quiz/index.tsx:186-226 | a whole quiz played from the start ends with the score of its answers and exactly one record |
| QuizTrace.RightWrongRight | src/screens/Quiz/index.tsx:186-226 | three questions answered right, wrong, right: 2 points, one record with points 2 and questions 3 |
| QuizTrace.SkipSecondOfThree | src/screens/Quiz/index.tsx:179-184 | skipping question 2 of 3 moves to index 2 with points unchanged and nothing scored |
| QuizTrace.StopMidQuiz | src/screens/Quiz/index.tsx:228-242 | stop then "Sim" mid-quiz goes home with no record |
| QuizTrace.WrongThenRight | src/screens/Quiz/index.tsx:210-226 | a wrong confirm then a right confirm while the shake runs leaves both the shake and the points effect pending |
| QuizTrace.EffectThenShake | src/screens/Quiz/index.tsx:156-160 | with both callbacks pending and the shake from the same question, each advances: the index rises by 2 and points are unchanged |
| QuizTrace.ConfirmDuringShakeAdvancesTwice | src/screens/Quiz/index.tsx:210-226 | a wrong confirm, then a right confirm during the shake, then both callbacks: the index rises by 2, points by 1, and two confirms are logged |
| QuizTrace.EffectThenShakePastEnd | src/screens/Quiz/index.tsx:201-208 | on the second-to-last question both callbacks pass the test of line 202, so the live index reaches the question count, the screen crashes, and nothing is recorded |
| QuizTrace.ConfirmDuringShakeLeavesRange | src/screens/Quiz/index.tsx:201-226 | the double confirm on the second-to-last question ends with the index at the question count, the screen crashed and empty history |
| QuizTrace.EffectThenShakeAtEnd | src/screens/Quiz/index.tsx:186-199 | on the last question both pending callbacks finish the quiz: first a record of the live points, then a record of the points the shake's render saw |
| QuizTrace.ConfirmDuringShakeRecordsTwice | src/screens/Quiz/index.tsx:186-226 | the double confirm on the last question finishes with history exactly [record of p + 1, record of p], where p is the score before the question |
| QuizTrace.SwipeSkip | src/screens/Quiz/index.tsx:88-94 | releasing the card below -200 and accepting the skip alert advances once, scores nothing, and leaves the card at 0 |
| QuizTrace.SkipDuringShakeLeavesRange | src/screens/Quiz/index.tsx:179-184 | on the second-to-last question, a skip asked for during the shake, accepted, and then the finished shake take the index to the question count and crash the screen, points unchanged |
| QuizScreen.Session.constructor | src/screens/Quiz/index.tsx:246-250 | mounting loads the quiz with the id and leaves the initial session; the mount-time run of the `points` effect does not advance |
| QuizScreen.Session.SetAlternativeSelected | src/screens/Quiz/index.tsx:305 | updates the fields as `SelectAlternative` |
| QuizScreen.Session.PlaySound | src/screens/Quiz/index.tsx:62-69 | the cue asked for is appended to the cue log |
| QuizScreen.Session.ShakeAnimation | src/screens/Quiz/index.tsx:151-163 | the shake is pending afterwards, holding the current index and points |
| QuizScreen.Session.HandleSkipConfirm | src/screens/Quiz/index.tsx:179-184 | updates the fields as `RequestSkip` |
| QuizScreen.Session.HandleConfirm | src/screens/Quiz/index.tsx:210-226 | updates the fields as `Confirm` and keeps the invariant |
| QuizScreen.Session.ScoreSelection | src/screens/Quiz/index.tsx:215-225 | updates the fields as `ScoreChoice` |
| QuizScreen.Session.ScoreRight | src/screens/Quiz/index.tsx:215-218 | on a match, updates the fields as `ScoreChoice`: one more point, cue `true`, reply Correct |
| QuizScreen.Session.ScoreWrong | src/screens/Quiz/index.tsx:219-222 | on a mismatch, updates the fields as `ScoreChoice`: cue `true`, reply Incorrect, shake started from this render |
| QuizScreen.Session.HandleFinished | src/screens/Quiz/index.tsx:186-199 | updates the fields as `Finish` with the points of the given render |
| QuizScreen.Session.HandleNextQuestion | src/screens/Quiz/index.tsx:201-208 | updates the fields as `NextQuestion` from the given render |
| QuizScreen.Session.OnPointsChanged | src/screens/Quiz/index.tsx:252-256 | updates the fields as `PointsEffect` |
| QuizScreen.Session.OnShakeSettled | src/screens/Quiz/index.tsx:156-160 | updates the fields as `ShakeSettled`, running the handler of the shake's render |
| QuizScreen.Session.OnSkipAnswered | src/screens/Quiz/index.tsx:180-182 | updates the fields as `AnswerSkip`, running the handler of the alert's render |
| QuizScreen.Session.HandleStop | src/screens/Quiz/index.tsx:228-242 | returns `true` and updates the fields as `RequestStop` |
| QuizScreen.Session.OnStopAnswered | src/screens/Quiz/index.tsx:229-239 | updates the fields as `AnswerStop` |
| QuizScreen.Session.OnPanUpdate | src/screens/Quiz/index.tsx:81-87 | updates the card as `PanUpdate` |
| QuizScreen.Session.OnPanEnd | src/screens/Quiz/index.tsx:88-94 | updates the card and the alerts as `PanEnd` |
| QuizScreen.Session.OnQuestionUnmount | src/screens/Quiz/index.tsx:306 | updates the reply as `QuestionUnmount` |

## Left out

- Animated styles and interpolation are not modelled: `dragStyles` (the rotation `cardPosition / CARD_INCLINATION`), `fixedProgressBarStyle`, `headerStyle`, `questionAnimatedStyle` and the scroll handler. They are floating-point presentation over the animation library.
- Durations and easing of `withTiming` and `withSequence` are not modelled. The shake is reduced to its completion callback (`OnShakeSettled(finished)`). The card's snap-back is reduced to its final value 0.
- The 200 ms `activateAfterLongPress` belongs to the gesture library. Pan events in the model are those of an already activated gesture.
- Loading and playing the sound file, and the haptic pulse, are not modelled. Only the argument of `playSound` is logged. Starting the shake stands for the pulse.
- `Alert.alert`, `navigate`, and adding and removing the `BackHandler` listener are not modelled as real effects. Alerts are a log answered in order. Navigation is the `mode` field. The hardware back button calls the same `HandleStop`.
- The persistent storage behind `historyAdd` and its failures are not modelled. The record's time-derived id is omitted.
- The catalogue lookup is a precondition of the constructor: the id exists and its quiz has at least one question. The screen's first render indexes `questions[0]`.
- React scheduling is modelled only as far as event order. The interleavings at `await playSound` between `setPoints` and `setStatusReply` are not modelled. Neither is the timing of the `Question` remount, which happens when the question title (its `key`) changes; here it is a free `QuestionReplaced` event. Handlers that run later are given the render they were created in, but only the shake callback and the skip alert's "Sim" are modelled that way. User input always reaches the latest render.
- A new shake cancels the running one, and its callback then sees `finished` false. The model keeps only the latest pending shake, so the cancelled callback is not a separate event.
- After the crash at line 302 no further event is modelled.
- Callbacks that would arrive after navigation home are not modelled.
- `event.translationX` is a JavaScript number. The model uses `real`, so rounding is not modelled; the comparisons with 0 and -200 are exact.
- JSX rendering, `Loading`, and the `Level` component (src/components/Level/index.tsx) are not modelled. They are presentational and have no state-machine logic.
- QuizTrace.WrongThenRight: states only that the confirmation log grows by two entries, not the two entries themselves. The exact log follows from `Confirm`'s contract, but stating it here made the proof too costly.
- QuizTrace.ConfirmDuringShakeAdvancesTwice: states only the length of the confirmation log, for the same reason. It does not state that the skipped question is never shown, since rendering is not modelled; it states the index rising by 2.
