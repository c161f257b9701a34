/**
 * The discrete state of the quiz screen and its transitions, as pure
 * functions over a `Screen` value. Each function is the specification of one
 * handler of the screen (see module QuizScreen for the class that runs them
 * in place), and each keeps the invariant `Inv`.
 *
 * The side effects of the screen are kept as logs inside the value:
 * `history` (what `historyAdd` was given), `dialogs` (the alerts requested,
 * answered in order), `cues` (the argument of every `playSound`), `mode`
 * (where the navigator was sent) and `confirmed` (every scored confirm).
 *
 * A handler of the screen sees the state of the render that created it. The
 * shake's completion callback and the buttons of the skip alert run later,
 * with the handlers of the render that scheduled them, so each carries a
 * `Snapshot` of the `currentQuestion` and `points` it closed over.
 */
module QuizMachine {
  import opened Wrappers
  import opened QuizData

  /** `statusReply`: 0 neutral, 1 correct, 2 incorrect. */
  datatype Reply = Neutral | Correct | Incorrect

  /**
   * Where the navigator stands: still on the quiz, sent to 'finish', or sent
   * to 'home'; `Crashed` when `currentQuestion` went past the last question,
   * so that the next render's `quiz.questions[currentQuestion].title` throws.
   */
  datatype Mode = Active | Finished | NavigatedHome | Crashed

  /** The values of `currentQuestion` and `points` that a handler closed over. */
  datatype Snapshot = Snapshot(current: nat, points: nat)

  /** An alert on screen; the skip alert's "Sim" runs the handler of the render that opened it. */
  datatype Dialog = SkipDialog(from: Snapshot) | StopDialog

  /** A confirm that had a selection: the question on screen and the alternative chosen. */
  datatype Confirmation = Confirmation(question: nat, choice: nat)

  datatype Screen = Screen(
    points: nat,
    current: nat,
    selected: Option<nat>,
    status: Reply,
    card: real,
    shake: Option<Snapshot>,
    pointsChanged: bool,
    mode: Mode,
    history: seq<HistoryRecord>,
    dialogs: seq<Dialog>,
    dialogsAnswered: nat,
    cues: seq<bool>,
    confirmed: seq<Confirmation>)

  /** `CARD_SKIP_AREA`: a release left of this translation asks to skip. */
  const CardSkipArea: real := -200.0

  /** What the handlers of the current render close over. */
  function Now(s: Screen): Snapshot
  {
    Snapshot(s.current, s.points)
  }

  /** A confirmation scores when its choice is the correct index of its question. */
  predicate Hit(quiz: Quiz, c: Confirmation)
  {
    c.question < |quiz.questions| && quiz.questions[c.question].correct == c.choice
  }

  /** Number of scoring confirmations in a log. */
  function CorrectCount(quiz: Quiz, log: seq<Confirmation>): (n: nat)
    ensures n <= |log|
  {
    if log == [] then 0
    else (if Hit(quiz, log[0]) then 1 else 0) + CorrectCount(quiz, log[1..])
  }

  lemma {:induction false} CorrectCountSnoc(quiz: Quiz, log: seq<Confirmation>, c: Confirmation)
    ensures CorrectCount(quiz, log + [c]) == CorrectCount(quiz, log) + (if Hit(quiz, c) then 1 else 0)
  {
    if log == [] {
      assert [] + [c] == [c];
      assert [c][1..] == [];
    } else {
      assert (log + [c])[1..] == log[1..] + [c];
      CorrectCountSnoc(quiz, log[1..], c);
    }
  }

  /** A history record of this quiz, with no more points than it has questions. */
  predicate RecordFits(quiz: Quiz, h: HistoryRecord)
  {
    h == Record(quiz, h.points) && h.points <= |quiz.questions|
  }

  /**
   * What every reachable screen satisfies: the question index is in range
   * unless the screen crashed, `points` is the number of scoring confirms and
   * never ahead of the progress, history is written only once the quiz has
   * left the question screen and only with records of this quiz, every
   * score a callback closed over is at most the number of questions, the card
   * never sits right of 0, and every sound cue played is the "correct" one.
   */
  predicate Inv(quiz: Quiz, s: Screen)
  {
    WellFormed(quiz) &&
    s.current <= |quiz.questions| &&
    (s.current == |quiz.questions| <==> s.mode == Crashed) &&
    s.card <= 0.0 &&
    s.dialogsAnswered <= |s.dialogs| &&
    s.points == CorrectCount(quiz, s.confirmed) &&
    s.points <= s.current + 1 && s.points <= |quiz.questions| &&
    (s.mode == Active && !s.pointsChanged ==> s.points <= s.current) &&
    (s.mode == Active ==> s.history == []) &&
    (s.mode == Finished ==> s.history != []) &&
    (forall h :: h in s.history ==> RecordFits(quiz, h)) &&
    (s.shake.Some? ==> s.shake.value.points <= |quiz.questions|) &&
    (forall d :: d in s.dialogs && d.SkipDialog? ==> d.from.points <= |quiz.questions|) &&
    false !in s.cues
  }

  /** The state once the screen is mounted and the quiz is loaded. */
  function Initial(quiz: Quiz): (s: Screen)
    requires WellFormed(quiz)
    ensures Inv(quiz, s) && s.mode == Active
    ensures s.points == 0 && s.current == 0 && s.selected == None && s.status == Neutral
  {
    Screen(0, 0, None, Neutral, 0.0, None, false, Active, [], [], 0, [], [])
  }

  /** The selection made on the `Question` component. */
  function SelectAlternative(quiz: Quiz, s: Screen, choice: nat): (r: Screen)
    requires Inv(quiz, s) && s.mode == Active
    requires choice < |quiz.questions[s.current].alternatives|
    ensures Inv(quiz, r)
    ensures r.selected == Some(choice) && r.(selected := s.selected) == s
  {
    s.(selected := Some(choice))
  }

  /** The selection on screen is the correct alternative of the current question. */
  predicate Matches(quiz: Quiz, s: Screen)
    requires s.current < |quiz.questions|
  {
    s.selected == Some(quiz.questions[s.current].correct)
  }

  /**
   * `handleSkipConfirm`: asks "Pular" with Sim/Não and changes nothing else;
   * the alert keeps the render it was opened from.
   */
  function RequestSkip(quiz: Quiz, s: Screen): (r: Screen)
    requires Inv(quiz, s)
    ensures Inv(quiz, r)
    ensures r.dialogs == s.dialogs + [SkipDialog(Now(s))] && r.(dialogs := s.dialogs) == s
  {
    s.(dialogs := s.dialogs + [SkipDialog(Now(s))])
  }

  /**
   * The scoring half of `handleConfirm`, for a selected `choice`: a match adds
   * exactly one point, shows Correct and schedules the effect on `points`; a
   * mismatch keeps the points, shows Incorrect and starts the shake, whose
   * callback closes over the current render. Both play the "correct" cue, log
   * the confirm and clear the selection.
   */
  function ScoreChoice(quiz: Quiz, s: Screen, choice: nat): (r: Screen)
    requires Inv(quiz, s) && s.mode == Active && !s.pointsChanged
    ensures Inv(quiz, r)
    ensures r.selected == None && r.cues == s.cues + [true]
    ensures r.confirmed == s.confirmed + [Confirmation(s.current, choice)]
    ensures var hit := quiz.questions[s.current].correct == choice;
      r == s.(points := r.points, selected := None, status := r.status, shake := r.shake,
              pointsChanged := hit, cues := r.cues, confirmed := r.confirmed) &&
      (hit ==> r.points == s.points + 1 && r.status == Correct && r.shake == s.shake) &&
      (!hit ==> r.points == s.points && r.status == Incorrect && r.shake == Some(Now(s)))
  {
    var c := Confirmation(s.current, choice);
    CorrectCountSnoc(quiz, s.confirmed, c);
    var scored := s.(selected := None, cues := s.cues + [true], confirmed := s.confirmed + [c]);
    if quiz.questions[s.current].correct == choice then
      scored.(points := s.points + 1, status := Correct, pointsChanged := true)
    else
      scored.(status := Incorrect, shake := Some(Now(s)))
  }

  /**
   * `handleConfirm`. Without a selection it only asks to skip. With one it
   * scores: a match adds exactly one point and shows Correct, a mismatch keeps
   * the points, shows Incorrect and starts the shake; both play the "correct"
   * cue and clear the selection. It never moves to another question itself,
   * and it does not look at `statusReply`.
   */
  function Confirm(quiz: Quiz, s: Screen): (r: Screen)
    requires Inv(quiz, s) && s.mode == Active && !s.pointsChanged
    ensures Inv(quiz, r)
    ensures s.selected == None ==> r == s.(dialogs := s.dialogs + [SkipDialog(Now(s))])
    ensures s.selected != None ==>
      r.selected == None && r.dialogs == s.dialogs && r.cues == s.cues + [true] &&
      r.confirmed == s.confirmed + [Confirmation(s.current, s.selected.value)]
    ensures r.points == s.points + 1 <==> Matches(quiz, s)
    ensures r.points == s.points <==> !Matches(quiz, s)
    ensures s.selected != None ==> (r.status == Correct <==> Matches(quiz, s)) && (r.status == Incorrect <==> !Matches(quiz, s))
    ensures r.pointsChanged <==> Matches(quiz, s)
    ensures r.shake == if s.selected != None && !Matches(quiz, s) then Some(Now(s)) else s.shake
    ensures r.current == s.current && r.history == s.history && r.mode == s.mode && r.card == s.card
    ensures r.dialogsAnswered == s.dialogsAnswered
  {
    match s.selected
    case None => RequestSkip(quiz, s)
    case Some(choice) => ScoreChoice(quiz, s, choice)
  }

  /**
   * What one call of the `handleNextQuestion` of render `from` does: its test
   * reads the `currentQuestion` it closed over, while the update
   * `prevState => prevState + 1` reads the live one. When the test passes,
   * the live index moves on by exactly one, and if that goes past the last
   * question the next render crashes. Otherwise the index stays put and
   * exactly one record with the closed-over points is appended. The score is
   * untouched either way.
   */
  predicate Advanced(quiz: Quiz, s: Screen, from: Snapshot, r: Screen)
  {
    r.points == s.points &&
    if from.current + 1 < |quiz.questions| then
      r.current == s.current + 1 && r.history == s.history &&
      r.mode == (if r.current < |quiz.questions| then s.mode else Crashed)
    else
      r.current == s.current && r.history == s.history + [Record(quiz, from.points)] && r.mode == Finished
  }

  /** `handleFinished` of a render whose `points` were `points`: records the attempt and navigates to 'finish'. */
  function Finish(quiz: Quiz, s: Screen, points: nat): (r: Screen)
    requires Inv(quiz, s) && s.mode != Crashed && points <= |quiz.questions|
    ensures Inv(quiz, r)
    ensures r.mode == Finished && r.history == s.history + [Record(quiz, points)]
    ensures r.(mode := s.mode, history := s.history) == s
  {
    s.(history := s.history + [Record(quiz, points)], mode := Finished)
  }

  /** `handleNextQuestion` of render `from`, run on the live state `s`. */
  function NextQuestion(quiz: Quiz, s: Screen, from: Snapshot): (r: Screen)
    requires Inv(quiz, s) && s.mode != Crashed && from.points <= |quiz.questions|
    ensures Inv(quiz, r)
    ensures Advanced(quiz, s, from, r)
    ensures r.(current := s.current, history := s.history, mode := s.mode) == s
  {
    if from.current < |quiz.questions| - 1 then
      var moved := s.(current := s.current + 1);
      if moved.current < |quiz.questions| then moved else moved.(mode := Crashed)
    else Finish(quiz, s, from.points)
  }

  /**
   * The effect that runs after `points` changed, with the handlers of the
   * render that shows the new score. Its run at mount sees the quiz not yet
   * loaded and does nothing; every later run advances once from the live state.
   */
  function PointsEffect(quiz: Quiz, s: Screen, quizLoaded: bool): (r: Screen)
    requires Inv(quiz, s) && s.pointsChanged && s.mode != Crashed
    requires quizLoaded || s.points <= s.current
    ensures Inv(quiz, r) && !r.pointsChanged
    ensures quizLoaded ==> Advanced(quiz, s, Now(s), r)
    ensures quizLoaded ==> r.(current := s.current, history := s.history, mode := s.mode, pointsChanged := s.pointsChanged) == s
    ensures !quizLoaded ==> r == s.(pointsChanged := false)
    ensures r.confirmed == s.confirmed && r.dialogs == s.dialogs && r.selected == s.selected
    ensures r.shake == s.shake && r.dialogsAnswered == s.dialogsAnswered
  {
    if quizLoaded then NextQuestion(quiz, s, Now(s)).(pointsChanged := false)
    else s.(pointsChanged := false)
  }

  /**
   * The completion callback of the shake sequence: when it finished, it runs
   * the `handleNextQuestion` of the render that started the shake. A shake
   * started while another runs cancels it, and the cancelled callback sees
   * `finished == false`, so only the latest shake is kept pending.
   */
  function ShakeSettled(quiz: Quiz, s: Screen, finished: bool): (r: Screen)
    requires Inv(quiz, s) && s.shake.Some? && !s.pointsChanged && s.mode != Crashed
    ensures Inv(quiz, r) && r.shake == None
    ensures finished ==> Advanced(quiz, s, s.shake.value, r)
    ensures finished ==> r.(current := s.current, history := s.history, mode := s.mode, shake := s.shake) == s
    ensures !finished ==> r == s.(shake := None)
    ensures r.confirmed == s.confirmed && r.dialogs == s.dialogs && r.selected == s.selected
  {
    var settled := s.(shake := None);
    if finished then NextQuestion(quiz, settled, s.shake.value) else settled
  }

  /** The next unanswered alert is a skip alert. */
  predicate SkipPending(s: Screen)
  {
    s.dialogsAnswered < |s.dialogs| && s.dialogs[s.dialogsAnswered].SkipDialog?
  }

  /** The next unanswered alert is a stop alert. */
  predicate StopPending(s: Screen)
  {
    s.dialogsAnswered < |s.dialogs| && s.dialogs[s.dialogsAnswered] == StopDialog
  }

  /**
   * Answering the skip alert: "Sim" runs the `handleNextQuestion` of the
   * render that opened the alert, without scoring; "Não" does nothing.
   */
  function AnswerSkip(quiz: Quiz, s: Screen, yes: bool): (r: Screen)
    requires Inv(quiz, s) && !s.pointsChanged && s.mode != Crashed && SkipPending(s)
    ensures Inv(quiz, r) && r.dialogsAnswered == s.dialogsAnswered + 1
    ensures yes ==> Advanced(quiz, s, s.dialogs[s.dialogsAnswered].from, r)
    ensures yes ==> r.(current := s.current, history := s.history, mode := s.mode, dialogsAnswered := s.dialogsAnswered) == s
    ensures !yes ==> r == s.(dialogsAnswered := s.dialogsAnswered + 1)
    ensures r.points == s.points && r.confirmed == s.confirmed
  {
    var answered := s.(dialogsAnswered := s.dialogsAnswered + 1);
    if yes then NextQuestion(quiz, answered, s.dialogs[s.dialogsAnswered].from) else answered
  }

  /** `handleStop` (also the hardware back handler): asks "Parar" and reports the event handled. */
  function RequestStop(quiz: Quiz, s: Screen): (r: (Screen, bool))
    requires Inv(quiz, s)
    ensures Inv(quiz, r.0) && r.1
    ensures r.0.dialogs == s.dialogs + [StopDialog] && r.0.(dialogs := s.dialogs) == s
  {
    (s.(dialogs := s.dialogs + [StopDialog]), true)
  }

  /** Answering the stop alert: "Sim" navigates home, "Não" does nothing; neither records. */
  function AnswerStop(quiz: Quiz, s: Screen, yes: bool): (r: Screen)
    requires Inv(quiz, s) && !s.pointsChanged && s.mode != Crashed && StopPending(s)
    ensures Inv(quiz, r) && r.dialogsAnswered == s.dialogsAnswered + 1
    ensures r.history == s.history && r.points == s.points && r.current == s.current
    ensures r.mode == (if yes then NavigatedHome else s.mode)
    ensures r.(mode := s.mode, dialogsAnswered := s.dialogsAnswered) == s
  {
    var answered := s.(dialogsAnswered := s.dialogsAnswered + 1);
    if yes then answered.(mode := NavigatedHome) else answered
  }

  /** Pan `onUpdate`: the card follows the finger only while it is left of the start. */
  function PanUpdate(quiz: Quiz, s: Screen, translationX: real): (r: Screen)
    requires Inv(quiz, s)
    ensures Inv(quiz, r)
    ensures translationX < 0.0 ==> r.card == translationX
    ensures translationX >= 0.0 ==> r.card == s.card
    ensures r.(card := s.card) == s
  {
    if translationX < 0.0 then s.(card := translationX) else s
  }

  /**
   * Pan `onEnd`: a release strictly left of `CardSkipArea` asks to skip, any
   * other release asks nothing; the card goes back to 0 either way.
   */
  function PanEnd(quiz: Quiz, s: Screen, translationX: real): (r: Screen)
    requires Inv(quiz, s)
    ensures Inv(quiz, r) && r.card == 0.0
    ensures translationX < CardSkipArea ==> r.dialogs == s.dialogs + [SkipDialog(Now(s))]
    ensures translationX >= CardSkipArea ==> r.dialogs == s.dialogs
    ensures r.(card := s.card, dialogs := s.dialogs) == s
  {
    var asked := if translationX < CardSkipArea then RequestSkip(quiz, s) else s;
    asked.(card := 0.0)
  }

  /** `onUnmount` of the `Question` view: the overlay goes back to neutral. */
  function QuestionUnmount(quiz: Quiz, s: Screen): (r: Screen)
    requires Inv(quiz, s)
    ensures Inv(quiz, r) && r.status == Neutral
    ensures r.(status := s.status) == s
  {
    s.(status := Neutral)
  }
}
