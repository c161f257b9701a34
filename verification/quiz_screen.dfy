/**
 * The quiz screen as an object whose handlers update its state in place, as
 * the React component does through `setPoints`, `setCurrentQuestion`,
 * `setAlternativeSelected`, `setStatusReply` and `cardPosition.value`.
 * The shake that is still running and the alerts on screen are fields too:
 * each holds the `Snapshot` of the render whose handler it will call. The
 * other side effects (navigation, `historyAdd`, sounds, the pending effect
 * on `points`) are ghost fields. Every handler is
 * specified by the transition of module QuizMachine it performs, so the
 * invariant and the lemmas proved there hold of the object.
 */
module QuizScreen {
  import opened Wrappers
  import opened QuizData
  import opened QuizMachine

  class Session {
    const quiz: Quiz
    var points: nat
    var currentQuestion: nat
    var alternativeSelected: Option<nat>
    var statusReply: Reply
    var cardPosition: real

    // Callbacks still to come, with the render each closed over.
    var shake: Option<Snapshot>
    var dialogs: seq<Dialog>
    var dialogsAnswered: nat

    // Effects of the screen, observed rather than executed.
    ghost var pointsChanged: bool
    ghost var mode: Mode
    ghost var history: seq<HistoryRecord>
    ghost var cues: seq<bool>
    ghost var confirmed: seq<Confirmation>

    ghost function State(): Screen
      reads this
    {
      Screen(points, currentQuestion, alternativeSelected, statusReply, cardPosition,
             shake, pointsChanged, mode, history, dialogs, dialogsAnswered, cues, confirmed)
    }

    ghost predicate Valid()
      reads this
    {
      Inv(quiz, State())
    }

    /**
     * Mounting the screen for quiz `id`: the quiz is looked up in the
     * catalogue, and the first run of the effect on `points` sees the quiz
     * not loaded yet, so it does not advance.
     */
    constructor (catalog: seq<Quiz>, id: string)
      requires Lookup(catalog, id).Some? && WellFormed(Lookup(catalog, id).value)
      ensures quiz == Lookup(catalog, id).value
      ensures Valid() && State() == Initial(quiz)
    {
      quiz := Lookup(catalog, id).value;
      points, currentQuestion, alternativeSelected, statusReply, cardPosition := 0, 0, None, Neutral, 0.0;
      shake, pointsChanged, mode := None, true, Active;
      history, dialogs, dialogsAnswered, cues, confirmed := [], [], 0, [], [];
      new;
      OnPointsChanged(false);
    }

    /** `setAlternativeSelected`, as called by the `Question` view. */
    method SetAlternativeSelected(choice: nat)
      requires Valid() && mode == Active
      requires choice < |quiz.questions[currentQuestion].alternatives|
      modifies this
      ensures Valid() && State() == SelectAlternative(quiz, old(State()), choice)
    {
      alternativeSelected := Some(choice);
    }

    /** `playSound`: only the cue asked for is kept. */
    method PlaySound(isCorrect: bool)
      modifies this`cues
      ensures cues == old(cues) + [isCorrect]
    {
      cues := cues + [isCorrect];
    }

    /**
     * `shakeAnimation`: the haptic pulse and the shake sequence are started,
     * and its completion callback closes over this render's
     * `currentQuestion` and `points`.
     */
    method ShakeAnimation()
      modifies this`shake
      ensures shake == Some(Snapshot(currentQuestion, points))
    {
      shake := Some(Snapshot(currentQuestion, points));
    }

    /** `handleSkipConfirm`. */
    method HandleSkipConfirm()
      requires Valid()
      modifies this`dialogs
      ensures Valid() && State() == RequestSkip(quiz, old(State()))
    {
      dialogs := dialogs + [SkipDialog(Snapshot(currentQuestion, points))];
    }

    /** `handleConfirm`. */
    method HandleConfirm()
      requires Valid() && mode == Active && !pointsChanged
      modifies this
      ensures Valid() && State() == Confirm(quiz, old(State()))
    {
      if alternativeSelected == None {
        HandleSkipConfirm();
      } else {
        ScoreSelection(alternativeSelected.value);
      }
    }

    /** The branch of `handleConfirm` taken when an alternative is selected. */
    method ScoreSelection(choice: nat)
      requires Valid() && mode == Active && !pointsChanged
      modifies this
      ensures Valid() && State() == ScoreChoice(quiz, old(State()), choice)
    {
      if quiz.questions[currentQuestion].correct == choice {
        ScoreRight(choice);
      } else {
        ScoreWrong(choice);
      }
    }

    /** A selection that is the correct alternative: one more point, the "correct" cue, reply Correct. */
    method ScoreRight(choice: nat)
      requires Valid() && mode == Active && !pointsChanged
      requires quiz.questions[currentQuestion].correct == choice
      modifies this
      ensures Valid() && State() == ScoreChoice(quiz, old(State()), choice)
    {
      ghost var want := ScoreChoice(quiz, State(), choice);
      confirmed := confirmed + [Confirmation(currentQuestion, choice)];
      points := points + 1;
      pointsChanged := true;
      PlaySound(true);
      statusReply := Correct;
      alternativeSelected := None;
      assert State() == want;
    }

    /** A selection that is not the correct alternative: the "correct" cue as written, reply Incorrect, the shake. */
    method ScoreWrong(choice: nat)
      requires Valid() && mode == Active && !pointsChanged
      requires quiz.questions[currentQuestion].correct != choice
      modifies this
      ensures Valid() && State() == ScoreChoice(quiz, old(State()), choice)
    {
      ghost var want := ScoreChoice(quiz, State(), choice);
      confirmed := confirmed + [Confirmation(currentQuestion, choice)];
      PlaySound(true);
      statusReply := Incorrect;
      ShakeAnimation();
      alternativeSelected := None;
      assert State() == want;
    }

    /**
     * `handleFinished` of render `from`: `historyAdd` with the attempt and the
     * points that render saw, then navigation to 'finish'.
     */
    method HandleFinished(from: Snapshot)
      requires Valid() && mode != Crashed && from.points <= |quiz.questions|
      modifies this`history, this`mode
      ensures Valid() && State() == Finish(quiz, old(State()), from.points)
    {
      history := history + [Record(quiz, from.points)];
      mode := Finished;
    }

    /**
     * `handleNextQuestion` of render `from`: the test reads the index that
     * render saw, the increment reads the live one. An index past the last
     * question makes the next render fail.
     */
    method HandleNextQuestion(from: Snapshot)
      requires Valid() && mode != Crashed && from.points <= |quiz.questions|
      modifies this
      ensures Valid() && State() == NextQuestion(quiz, old(State()), from)
    {
      if from.current < |quiz.questions| - 1 {
        currentQuestion := currentQuestion + 1;
        if currentQuestion >= |quiz.questions| {
          mode := Crashed;
        }
      } else {
        HandleFinished(from);
      }
    }

    /** The effect on `points`; `quizLoaded` is whether the render it belongs to had the quiz. */
    method OnPointsChanged(quizLoaded: bool)
      requires Valid() && pointsChanged && mode != Crashed
      requires quizLoaded || points <= currentQuestion
      modifies this
      ensures Valid() && State() == PointsEffect(quiz, old(State()), quizLoaded)
    {
      if quizLoaded {
        HandleNextQuestion(Snapshot(currentQuestion, points));
      }
      pointsChanged := false;
    }

    /** The completion callback of the shake sequence, with the handler of the render that started it. */
    method OnShakeSettled(finished: bool)
      requires Valid() && shake.Some? && !pointsChanged && mode != Crashed
      modifies this
      ensures Valid() && State() == ShakeSettled(quiz, old(State()), finished)
    {
      var from := shake.value;
      shake := None;
      if finished {
        HandleNextQuestion(from);
      }
    }

    /** A button of the skip alert: "Sim" (`yes`) or "Não", with the handler of the render that opened it. */
    method OnSkipAnswered(yes: bool)
      requires Valid() && !pointsChanged && mode != Crashed && SkipPending(State())
      modifies this
      ensures Valid() && State() == AnswerSkip(quiz, old(State()), yes)
    {
      var from := dialogs[dialogsAnswered].from;
      assert dialogs[dialogsAnswered] in dialogs;
      dialogsAnswered := dialogsAnswered + 1;
      if yes {
        HandleNextQuestion(from);
      }
    }

    /** `handleStop`, also registered for the hardware back button. */
    method HandleStop() returns (handled: bool)
      requires Valid()
      modifies this`dialogs
      ensures handled
      ensures Valid() && State() == RequestStop(quiz, old(State())).0
    {
      dialogs := dialogs + [StopDialog];
      handled := true;
    }

    /** A button of the stop alert: "Sim" (`yes`) navigates home, "Não" does nothing. */
    method OnStopAnswered(yes: bool)
      requires Valid() && !pointsChanged && mode != Crashed && StopPending(State())
      modifies this
      ensures Valid() && State() == AnswerStop(quiz, old(State()), yes)
    {
      dialogsAnswered := dialogsAnswered + 1;
      if yes {
        mode := NavigatedHome;
      }
    }

    /** Pan `onUpdate`. */
    method OnPanUpdate(translationX: real)
      requires Valid()
      modifies this`cardPosition
      ensures Valid() && State() == PanUpdate(quiz, old(State()), translationX)
    {
      if translationX < 0.0 {
        cardPosition := translationX;
      }
    }

    /** Pan `onEnd`. */
    method OnPanEnd(translationX: real)
      requires Valid()
      modifies this`dialogs, this`cardPosition
      ensures Valid() && State() == PanEnd(quiz, old(State()), translationX)
    {
      if translationX < CardSkipArea {
        HandleSkipConfirm();
      }
      cardPosition := 0.0;
    }

    /** `onUnmount` of the `Question` view. */
    method OnQuestionUnmount()
      requires Valid()
      modifies this`statusReply
      ensures Valid() && State() == QuestionUnmount(quiz, old(State()))
    {
      statusReply := Neutral;
    }
  }
}
