/**
 * Sequences of events on the quiz screen. `Enabled` says when the screen can
 * receive an event: user input and callbacks only while it is mounted, user
 * input only while it is the front screen, and nothing else between a change
 * of `points` and the effect that watches it. `Run` folds `Step` over a
 * sequence and fails on the first event that could not have happened.
 */
module QuizTrace {
  import opened Wrappers
  import opened QuizData
  import opened QuizMachine

  datatype Event =
    | Select(choice: nat)
    | ConfirmPress
    | PointsChanged
    | ShakeDone(finished: bool)
    | SkipAnswer(yes: bool)
    | StopPress
    | StopAnswer(yes: bool)
    | PanMove(translationX: real)
    | PanRelease(translationX: real)
    | QuestionReplaced

  /** The screen is still mounted and rendering: on the quiz or under 'finish'. */
  predicate Mounted(s: Screen)
  {
    s.mode == Active || s.mode == Finished
  }

  predicate Enabled(quiz: Quiz, s: Screen, e: Event)
    requires Inv(quiz, s)
  {
    if s.pointsChanged then e == PointsChanged && Mounted(s)
    else match e
      case Select(choice) => s.mode == Active && choice < |quiz.questions[s.current].alternatives|
      case ConfirmPress => s.mode == Active
      case PointsChanged => false
      case ShakeDone(_) => Mounted(s) && s.shake.Some?
      case SkipAnswer(_) => Mounted(s) && SkipPending(s)
      case StopPress => s.mode == Active
      case StopAnswer(_) => Mounted(s) && StopPending(s)
      case PanMove(_) => s.mode == Active
      case PanRelease(_) => s.mode == Active
      case QuestionReplaced => Mounted(s)
  }

  /** What never goes back: score, progress, and the logs, which only grow. */
  predicate Grows(s: Screen, r: Screen)
  {
    s.points <= r.points && s.current <= r.current &&
    s.history <= r.history && s.dialogs <= r.dialogs && s.confirmed <= r.confirmed &&
    s.cues <= r.cues && s.dialogsAnswered <= r.dialogsAnswered &&
    (s.mode != Active ==> r.mode != Active)
  }

  function Step(quiz: Quiz, s: Screen, e: Event): (r: Screen)
    requires Inv(quiz, s) && Enabled(quiz, s, e)
    ensures Inv(quiz, r)
  {
    match e
    case Select(choice) => SelectAlternative(quiz, s, choice)
    case ConfirmPress => Confirm(quiz, s)
    case PointsChanged => PointsEffect(quiz, s, true)
    case ShakeDone(finished) => ShakeSettled(quiz, s, finished)
    case SkipAnswer(yes) => AnswerSkip(quiz, s, yes)
    case StopPress => RequestStop(quiz, s).0
    case StopAnswer(yes) => AnswerStop(quiz, s, yes)
    case PanMove(x) => PanUpdate(quiz, s, x)
    case PanRelease(x) => PanEnd(quiz, s, x)
    case QuestionReplaced => QuestionUnmount(quiz, s)
  }

  /**
   * No event moves anything backwards, and history changes only on an
   * advance: the points effect, a finished shake or an accepted skip.
   */
  lemma StepGrows(quiz: Quiz, s: Screen, e: Event)
    requires Inv(quiz, s) && Enabled(quiz, s, e)
    ensures Grows(s, Step(quiz, s, e))
    ensures Step(quiz, s, e).history != s.history ==> e in {PointsChanged, ShakeDone(true), SkipAnswer(true)}
  {
  }

  function Run(quiz: Quiz, s: Screen, es: seq<Event>): (r: Option<Screen>)
    requires Inv(quiz, s)
    ensures r.Some? ==> Inv(quiz, r.value)
    decreases |es|
  {
    if es == [] then Some(s)
    else if !Enabled(quiz, s, es[0]) then None
    else Run(quiz, Step(quiz, s, es[0]), es[1..])
  }

  lemma {:induction false} RunAppend(quiz: Quiz, s: Screen, a: seq<Event>, b: seq<Event>)
    requires Inv(quiz, s)
    ensures Run(quiz, s, a + b) == match Run(quiz, s, a)
                                   case None => None
                                   case Some(t) => Run(quiz, t, b)
    decreases |a|
  {
    if a != [] {
      assert (a + b)[0] == a[0] && (a + b)[1..] == a[1..] + b;
      if Enabled(quiz, s, a[0]) {
        RunAppend(quiz, Step(quiz, s, a[0]), a[1..], b);
      }
    } else {
      assert a + b == b;
    }
  }

  /** Over any run, score and progress never decrease and every log is only appended to. */
  lemma {:induction false} RunGrows(quiz: Quiz, s: Screen, es: seq<Event>)
    requires Inv(quiz, s)
    ensures Run(quiz, s, es).Some? ==> Grows(s, Run(quiz, s, es).value)
    decreases |es|
  {
    if es != [] && Enabled(quiz, s, es[0]) {
      var t := Step(quiz, s, es[0]);
      StepGrows(quiz, s, es[0]);
      RunGrows(quiz, t, es[1..]);
      if Run(quiz, s, es).Some? {
        var r := Run(quiz, s, es).value;
        assert s.history <= t.history <= r.history;
        assert s.dialogs <= t.dialogs <= r.dialogs;
        assert s.confirmed <= t.confirmed <= r.confirmed;
        assert s.cues <= t.cues <= r.cues;
      }
    }
  }

  /** Running a non-empty sequence is one enabled step followed by the rest. */
  lemma RunCons(quiz: Quiz, s: Screen, e: Event, rest: seq<Event>)
    requires Inv(quiz, s) && Enabled(quiz, s, e)
    ensures Run(quiz, s, [e] + rest) == Run(quiz, Step(quiz, s, e), rest)
  {
    assert ([e] + rest)[0] == e && ([e] + rest)[1..] == rest;
  }

  /**
   * Stopping never writes history: a run from the quiz screen in which no
   * event can advance (no points effect, no finished shake, no accepted skip)
   * ends with the history empty, whether or not it navigated home.
   */
  lemma {:induction false} StoppedRunRecordsNothing(quiz: Quiz, s: Screen, es: seq<Event>)
    requires Inv(quiz, s) && s.mode == Active
    requires forall k :: 0 <= k < |es| ==> es[k] !in {PointsChanged, ShakeDone(true), SkipAnswer(true)}
    ensures Run(quiz, s, es).Some? ==> Run(quiz, s, es).value.history == []
    decreases |es|
  {
    if es != [] && Enabled(quiz, s, es[0]) {
      var t := Step(quiz, s, es[0]);
      StepGrows(quiz, s, es[0]);
      assert t.history == s.history;
      if t.mode == Active {
        StoppedRunRecordsNothing(quiz, t, es[1..]);
      } else if es[1..] != [] {
        assert !Enabled(quiz, t, es[1..][0]);
      }
    }
  }

  // ---------------------------------------------------------------------
  // Playing a quiz one question at a time
  // ---------------------------------------------------------------------

  /** The user's answer to one question: pick an alternative, or confirm with none and accept the skip. */
  datatype Answer = Pick(choice: nat) | Pass

  /** Nothing in flight: on the quiz, no effect or shake pending, nothing selected, every alert answered. */
  predicate Settled(s: Screen)
  {
    s.mode == Active && !s.pointsChanged && s.shake == None && s.selected == None &&
    s.dialogsAnswered == |s.dialogs|
  }

  /** The events of answering question `k`, up to and including its advance. */
  function AnswerEvents(quiz: Quiz, k: nat, a: Answer): seq<Event>
    requires k < |quiz.questions|
  {
    match a
    case Pick(c) => [Select(c), ConfirmPress, if c == quiz.questions[k].correct then PointsChanged else ShakeDone(true)]
    case Pass => [ConfirmPress, SkipAnswer(true)]
  }

  function Gain(quiz: Quiz, k: nat, a: Answer): nat
    requires k < |quiz.questions|
  {
    if a == Pick(quiz.questions[k].correct) then 1 else 0
  }

  /** The answers, from question `k` on, pick existing alternatives. */
  predicate Playable(quiz: Quiz, k: nat, answers: seq<Answer>)
  {
    k + |answers| <= |quiz.questions| &&
    forall j :: 0 <= j < |answers| && answers[j].Pick? ==> answers[j].choice < |quiz.questions[k + j].alternatives|
  }

  function PlayEvents(quiz: Quiz, k: nat, answers: seq<Answer>): seq<Event>
    requires k + |answers| <= |quiz.questions|
    decreases |answers|
  {
    if answers == [] then [] else AnswerEvents(quiz, k, answers[0]) + PlayEvents(quiz, k + 1, answers[1..])
  }

  /** Number of answers, from question `k` on, that pick the correct alternative. */
  function Score(quiz: Quiz, k: nat, answers: seq<Answer>): (n: nat)
    requires k + |answers| <= |quiz.questions|
    ensures n <= |answers|
    decreases |answers|
  {
    if answers == [] then 0 else Gain(quiz, k, answers[0]) + Score(quiz, k + 1, answers[1..])
  }

  /** The progress one answer makes, as `AnswerAdvancesOnce` states it. */
  predicate AnsweredOnce(quiz: Quiz, s: Screen, a: Answer, r: Screen)
    requires Inv(quiz, s) && Settled(s)
  {
    r.points == s.points + Gain(quiz, s.current, a) &&
    |r.confirmed| == |s.confirmed| + (if a.Pick? then 1 else 0) &&
    if s.current + 1 < |quiz.questions| then
      Settled(r) && r.current == s.current + 1 && r.history == s.history
    else
      r.mode == Finished && r.history == s.history + [Record(quiz, r.points)]
  }

  lemma RightPick(quiz: Quiz, s: Screen)
    requires Inv(quiz, s) && Settled(s)
    requires quiz.questions[s.current].correct < |quiz.questions[s.current].alternatives|
    ensures var a := Pick(quiz.questions[s.current].correct);
      var r := Run(quiz, s, AnswerEvents(quiz, s.current, a));
      r.Some? && AnsweredOnce(quiz, s, a, r.value)
  {
    var c := quiz.questions[s.current].correct;
    var s1 := SelectAlternative(quiz, s, c);
    var s2 := Confirm(quiz, s1);
    var s3 := PointsEffect(quiz, s2, true);
    assert AnswerEvents(quiz, s.current, Pick(c)) == [Select(c)] + ([ConfirmPress] + ([PointsChanged] + []));
    RunCons(quiz, s, Select(c), [ConfirmPress] + ([PointsChanged] + []));
    RunCons(quiz, s1, ConfirmPress, [PointsChanged] + []);
    RunCons(quiz, s2, PointsChanged, []);
  }

  lemma WrongPick(quiz: Quiz, s: Screen, c: nat)
    requires Inv(quiz, s) && Settled(s)
    requires c < |quiz.questions[s.current].alternatives| && c != quiz.questions[s.current].correct
    ensures var r := Run(quiz, s, AnswerEvents(quiz, s.current, Pick(c)));
      r.Some? && AnsweredOnce(quiz, s, Pick(c), r.value)
  {
    var s1 := SelectAlternative(quiz, s, c);
    var s2 := Confirm(quiz, s1);
    var s3 := ShakeSettled(quiz, s2, true);
    assert AnswerEvents(quiz, s.current, Pick(c)) == [Select(c)] + ([ConfirmPress] + ([ShakeDone(true)] + []));
    RunCons(quiz, s, Select(c), [ConfirmPress] + ([ShakeDone(true)] + []));
    RunCons(quiz, s1, ConfirmPress, [ShakeDone(true)] + []);
    RunCons(quiz, s2, ShakeDone(true), []);
  }

  lemma PassQuestion(quiz: Quiz, s: Screen)
    requires Inv(quiz, s) && Settled(s)
    ensures var r := Run(quiz, s, AnswerEvents(quiz, s.current, Pass));
      r.Some? && AnsweredOnce(quiz, s, Pass, r.value)
  {
    var s1 := Confirm(quiz, s);
    var s2 := AnswerSkip(quiz, s1, true);
    assert AnswerEvents(quiz, s.current, Pass) == [ConfirmPress] + ([SkipAnswer(true)] + []);
    RunCons(quiz, s, ConfirmPress, [SkipAnswer(true)] + []);
    RunCons(quiz, s1, SkipAnswer(true), []);
  }

  /**
   * Each answered question advances exactly once: a correct pick through the
   * points effect, a wrong one through the finished shake, a pass through the
   * skip alert. The score grows by one exactly for a correct pick. Below the
   * last question the screen is settled on the next one with nothing
   * recorded; on the last, exactly one record with the final score is written.
   */
  lemma AnswerAdvancesOnce(quiz: Quiz, s: Screen, a: Answer)
    requires Inv(quiz, s) && Settled(s)
    requires a.Pick? ==> a.choice < |quiz.questions[s.current].alternatives|
    ensures var r := Run(quiz, s, AnswerEvents(quiz, s.current, a));
      r.Some? && AnsweredOnce(quiz, s, a, r.value)
  {
    match a
    case Pick(c) =>
      if c == quiz.questions[s.current].correct {
        RightPick(quiz, s);
      } else {
        WrongPick(quiz, s, c);
      }
    case Pass =>
      PassQuestion(quiz, s);
  }

  /**
   * Playing every remaining question in turn finishes the quiz with the
   * score of the answers, and writes exactly one record holding that score
   * and the number of questions.
   */
  lemma {:induction false} PlayScores(quiz: Quiz, s: Screen, answers: seq<Answer>)
    requires Inv(quiz, s) && Settled(s)
    requires |answers| == |quiz.questions| - s.current && Playable(quiz, s.current, answers)
    ensures var r := Run(quiz, s, PlayEvents(quiz, s.current, answers));
      r.Some? && r.value.mode == Finished &&
      r.value.points == s.points + Score(quiz, s.current, answers) &&
      r.value.history == [Record(quiz, r.value.points)]
    decreases |answers|
  {
    var k := s.current;
    var a, rest := answers[0], answers[1..];
    var here, later := AnswerEvents(quiz, k, a), PlayEvents(quiz, k + 1, rest);
    assert Score(quiz, k, answers) == Gain(quiz, k, a) + Score(quiz, k + 1, rest);
    AnswerAdvancesOnce(quiz, s, a);
    var t := Run(quiz, s, here).value;
    assert Run(quiz, s, PlayEvents(quiz, k, answers)) == Run(quiz, t, later) by {
      assert PlayEvents(quiz, k, answers) == here + later;
      RunAppend(quiz, s, here, later);
    }
    if k + 1 < |quiz.questions| {
      PlayableTail(quiz, k, answers);
      PlayScores(quiz, t, rest);
    } else {
      assert rest == [] && later == [];
    }
  }

  lemma PlayableTail(quiz: Quiz, k: nat, answers: seq<Answer>)
    requires answers != [] && Playable(quiz, k, answers)
    ensures Playable(quiz, k + 1, answers[1..])
  {
    forall j | 0 <= j < |answers[1..]| && answers[1..][j].Pick?
      ensures answers[1..][j].choice < |quiz.questions[k + 1 + j].alternatives|
    {
      assert answers[1..][j] == answers[j + 1];
    }
  }

  /** The whole quiz from its first question: final points are the score, one record is written. */
  lemma PlayWholeQuiz(quiz: Quiz, answers: seq<Answer>)
    requires WellFormed(quiz) && |answers| == |quiz.questions| && Playable(quiz, 0, answers)
    ensures var r := Run(quiz, Initial(quiz), PlayEvents(quiz, 0, answers));
      r.Some? && r.value.points == Score(quiz, 0, answers) &&
      r.value.history == [Record(quiz, Score(quiz, 0, answers))]
  {
    PlayScores(quiz, Initial(quiz), answers);
  }

  /** Three questions answered right, wrong, right: two points, one record of 2 out of 3. */
  lemma RightWrongRight(quiz: Quiz)
    requires |quiz.questions| == 3
    requires forall k :: 0 <= k < 3 ==> quiz.questions[k].correct < |quiz.questions[k].alternatives|
    requires |quiz.questions[1].alternatives| >= 2
    ensures var wrong := if quiz.questions[1].correct == 0 then 1 else 0;
      var answers := [Pick(quiz.questions[0].correct), Pick(wrong), Pick(quiz.questions[2].correct)];
      var r := Run(quiz, Initial(quiz), PlayEvents(quiz, 0, answers));
      r.Some? && r.value.points == 2 && r.value.history == [HistoryRecord(quiz.title, quiz.level, 2, 3)]
  {
    var wrong := if quiz.questions[1].correct == 0 then 1 else 0;
    var answers := [Pick(quiz.questions[0].correct), Pick(wrong), Pick(quiz.questions[2].correct)];
    PlayWholeQuiz(quiz, answers);
    var tail1 := answers[1..];
    var tail2 := tail1[1..];
    assert tail2[1..] == [];
    assert Score(quiz, 2, tail2) == 1 + Score(quiz, 3, []);
    assert Gain(quiz, 1, tail1[0]) == 0;
    assert Score(quiz, 1, tail1) == 1;
    assert Score(quiz, 0, answers) == 2;
  }

  /** Skipping question 2 of 3 moves to the third question and leaves the points as they were. */
  lemma SkipSecondOfThree(quiz: Quiz, s: Screen)
    requires Inv(quiz, s) && Settled(s) && |quiz.questions| == 3 && s.current == 1
    ensures var r := Run(quiz, s, [ConfirmPress, SkipAnswer(true)]);
      r.Some? && r.value.current == 2 && r.value.points == s.points && r.value.confirmed == s.confirmed
  {
    AnswerAdvancesOnce(quiz, s, Pass);
  }

  /** Stop then "Sim" in the middle of a quiz: home, nothing recorded. */
  lemma StopMidQuiz(quiz: Quiz, s: Screen)
    requires Inv(quiz, s) && Settled(s)
    ensures var r := Run(quiz, s, [StopPress, StopAnswer(true)]);
      r.Some? && r.value.mode == NavigatedHome && r.value.history == [] && r.value.points == s.points
  {
    var s1 := RequestStop(quiz, s).0;
    assert [StopPress, StopAnswer(true)] == [StopPress] + ([StopAnswer(true)] + []);
    RunCons(quiz, s, StopPress, [StopAnswer(true)] + []);
    RunCons(quiz, s1, StopAnswer(true), []);
  }

  /** A wrong pick confirmed, then the right pick confirmed while the shake still runs. */
  lemma WrongThenRight(quiz: Quiz, s: Screen, wrong: nat)
    requires Inv(quiz, s) && Settled(s)
    requires wrong < |quiz.questions[s.current].alternatives| && wrong != quiz.questions[s.current].correct
    requires quiz.questions[s.current].correct < |quiz.questions[s.current].alternatives|
    ensures var c := quiz.questions[s.current].correct;
      var r := Run(quiz, s, [Select(wrong), ConfirmPress, Select(c), ConfirmPress]);
      r.Some? && r.value.shake == Some(Snapshot(s.current, s.points)) && r.value.pointsChanged &&
      r.value.mode == Active && r.value.current == s.current && r.value.points == s.points + 1 &&
      r.value.history == s.history && |r.value.confirmed| == |s.confirmed| + 2
  {
    var c := quiz.questions[s.current].correct;
    var s1 := SelectAlternative(quiz, s, wrong);
    assert s1.selected == Some(wrong) && !Matches(quiz, s1);
    var s2 := Confirm(quiz, s1);
    assert s2.shake == Some(Snapshot(s.current, s.points));
    assert !s2.pointsChanged && s2.mode == Active && s2.current == s.current;
    assert s2.points == s.points && |s2.confirmed| == |s.confirmed| + 1;
    var s3 := SelectAlternative(quiz, s2, c);
    assert s3.selected == Some(c) && Matches(quiz, s3);
    var s4 := Confirm(quiz, s3);
    assert s4.shake == s2.shake && s4.pointsChanged && s4.points == s.points + 1;
    var t3 := [ConfirmPress] + [];
    var t2 := [Select(c)] + t3;
    var t1 := [ConfirmPress] + t2;
    assert [Select(wrong), ConfirmPress, Select(c), ConfirmPress] == [Select(wrong)] + t1;
    RunCons(quiz, s, Select(wrong), t1);
    RunCons(quiz, s1, ConfirmPress, t2);
    RunCons(quiz, s2, Select(c), t3);
    RunCons(quiz, s3, ConfirmPress, []);
    assert Run(quiz, s4, []) == Some(s4);
  }

  /**
   * A points effect, then a finished shake that closed over an earlier render
   * of the same question. The effect advances from the live index; the shake
   * runs its own `handleNextQuestion`, whose test still sees the old index and
   * passes, and moves the live index on again.
   */
  lemma EffectThenShake(quiz: Quiz, t: Screen, p: nat)
    requires Inv(quiz, t) && t.pointsChanged && t.mode == Active
    requires t.shake == Some(Snapshot(t.current, p))
    requires t.current + 2 < |quiz.questions|
    ensures var r := Run(quiz, t, [PointsChanged, ShakeDone(true)]);
      r.Some? && r.value.current == t.current + 2 && r.value.mode == Active &&
      r.value.points == t.points && r.value.confirmed == t.confirmed
  {
    var t1 := PointsEffect(quiz, t, true);
    var t2 := ShakeSettled(quiz, t1, true);
    assert [PointsChanged, ShakeDone(true)] == [PointsChanged] + ([ShakeDone(true)] + []);
    RunCons(quiz, t, PointsChanged, [ShakeDone(true)] + []);
    RunCons(quiz, t1, ShakeDone(true), []);
  }

  /**
   * `handleConfirm` does not look at `statusReply`: a wrong pick, then the
   * right pick before the shake has settled, advances twice, so the question
   * after the current one is passed over.
   */
  lemma ConfirmDuringShakeAdvancesTwice(quiz: Quiz, s: Screen, wrong: nat)
    requires Inv(quiz, s) && Settled(s) && s.current + 2 < |quiz.questions|
    requires wrong < |quiz.questions[s.current].alternatives| && wrong != quiz.questions[s.current].correct
    requires quiz.questions[s.current].correct < |quiz.questions[s.current].alternatives|
    ensures var c := quiz.questions[s.current].correct;
      var r := Run(quiz, s, [Select(wrong), ConfirmPress, Select(c), ConfirmPress] + [PointsChanged, ShakeDone(true)]);
      r.Some? && r.value.current == s.current + 2 && r.value.points == s.points + 1 &&
      |r.value.confirmed| == |s.confirmed| + 2
  {
    var c := quiz.questions[s.current].correct;
    var first := [Select(wrong), ConfirmPress, Select(c), ConfirmPress];
    var second := [PointsChanged, ShakeDone(true)];
    WrongThenRight(quiz, s, wrong);
    var t := Run(quiz, s, first).value;
    EffectThenShake(quiz, t, s.points);
    RunAppend(quiz, s, first, second);
  }

  /**
   * On the second-to-last question the same two callbacks move the live
   * index past the last question, and the next render of the screen fails.
   */
  lemma EffectThenShakePastEnd(quiz: Quiz, t: Screen, p: nat)
    requires Inv(quiz, t) && t.pointsChanged && t.mode == Active
    requires t.shake == Some(Snapshot(t.current, p))
    requires t.current + 2 == |quiz.questions|
    ensures var r := Run(quiz, t, [PointsChanged, ShakeDone(true)]);
      r.Some? && r.value.mode == Crashed && r.value.current == |quiz.questions| && r.value.history == t.history
  {
    var t1 := PointsEffect(quiz, t, true);
    var t2 := ShakeSettled(quiz, t1, true);
    assert [PointsChanged, ShakeDone(true)] == [PointsChanged] + ([ShakeDone(true)] + []);
    RunCons(quiz, t, PointsChanged, [ShakeDone(true)] + []);
    RunCons(quiz, t1, ShakeDone(true), []);
  }

  /**
   * The double confirm on the second-to-last question: the index ends one
   * past the last question, so `quiz.questions[currentQuestion]` is undefined
   * on the next render, and nothing was recorded.
   */
  lemma ConfirmDuringShakeLeavesRange(quiz: Quiz, s: Screen, wrong: nat)
    requires Inv(quiz, s) && Settled(s) && s.current + 2 == |quiz.questions|
    requires wrong < |quiz.questions[s.current].alternatives| && wrong != quiz.questions[s.current].correct
    requires quiz.questions[s.current].correct < |quiz.questions[s.current].alternatives|
    ensures var c := quiz.questions[s.current].correct;
      var r := Run(quiz, s, [Select(wrong), ConfirmPress, Select(c), ConfirmPress] + [PointsChanged, ShakeDone(true)]);
      r.Some? && r.value.mode == Crashed && r.value.current == |quiz.questions| && r.value.history == []
  {
    var c := quiz.questions[s.current].correct;
    var first := [Select(wrong), ConfirmPress, Select(c), ConfirmPress];
    var second := [PointsChanged, ShakeDone(true)];
    WrongThenRight(quiz, s, wrong);
    var t := Run(quiz, s, first).value;
    EffectThenShakePastEnd(quiz, t, s.points);
    RunAppend(quiz, s, first, second);
  }

  /**
   * On the last question the points effect finishes with the live score, then
   * the shake's callback finishes again with the score of the render that
   * started it.
   */
  lemma EffectThenShakeAtEnd(quiz: Quiz, t: Screen, p: nat)
    requires Inv(quiz, t) && t.pointsChanged && t.mode == Active
    requires t.shake == Some(Snapshot(t.current, p))
    requires t.current + 1 == |quiz.questions|
    ensures var r := Run(quiz, t, [PointsChanged, ShakeDone(true)]);
      r.Some? && r.value.mode == Finished && r.value.history == [Record(quiz, t.points), Record(quiz, p)]
  {
    var t1 := PointsEffect(quiz, t, true);
    var t2 := ShakeSettled(quiz, t1, true);
    assert [PointsChanged, ShakeDone(true)] == [PointsChanged] + ([ShakeDone(true)] + []);
    RunCons(quiz, t, PointsChanged, [ShakeDone(true)] + []);
    RunCons(quiz, t1, ShakeDone(true), []);
  }

  /**
   * The same double confirm on the last question finishes the quiz twice:
   * `historyAdd` first receives the attempt with the new score, then the
   * attempt with the score from before the right answer.
   */
  lemma ConfirmDuringShakeRecordsTwice(quiz: Quiz, s: Screen, wrong: nat)
    requires Inv(quiz, s) && Settled(s) && s.current + 1 == |quiz.questions|
    requires wrong < |quiz.questions[s.current].alternatives| && wrong != quiz.questions[s.current].correct
    requires quiz.questions[s.current].correct < |quiz.questions[s.current].alternatives|
    ensures var c := quiz.questions[s.current].correct;
      var r := Run(quiz, s, [Select(wrong), ConfirmPress, Select(c), ConfirmPress] + [PointsChanged, ShakeDone(true)]);
      r.Some? && r.value.mode == Finished &&
      r.value.history == [Record(quiz, s.points + 1), Record(quiz, s.points)]
  {
    var c := quiz.questions[s.current].correct;
    var first := [Select(wrong), ConfirmPress, Select(c), ConfirmPress];
    var second := [PointsChanged, ShakeDone(true)];
    WrongThenRight(quiz, s, wrong);
    AfterPrefixAtEnd(quiz, s, first, s.points);
  }

  /** `EffectThenShakeAtEnd` after any run `first` that leaves both callbacks pending. */
  lemma AfterPrefixAtEnd(quiz: Quiz, s: Screen, first: seq<Event>, p: nat)
    requires Inv(quiz, s) && Run(quiz, s, first).Some?
    requires var t := Run(quiz, s, first).value;
      t.pointsChanged && t.mode == Active && t.shake == Some(Snapshot(t.current, p)) &&
      t.current + 1 == |quiz.questions|
    ensures var t := Run(quiz, s, first).value;
      var r := Run(quiz, s, first + [PointsChanged, ShakeDone(true)]);
      r.Some? && r.value.mode == Finished && r.value.history == [Record(quiz, t.points), Record(quiz, p)]
  {
    var t := Run(quiz, s, first).value;
    EffectThenShakeAtEnd(quiz, t, p);
    RunAppend(quiz, s, first, [PointsChanged, ShakeDone(true)]);
  }

  /** Swiping the card past `CardSkipArea` and accepting the skip passes the question like a confirm with no selection. */
  lemma SwipeSkip(quiz: Quiz, s: Screen, x: real)
    requires Inv(quiz, s) && Settled(s) && x < CardSkipArea
    ensures var r := Run(quiz, s, [PanRelease(x), SkipAnswer(true)]);
      r.Some? && AnsweredOnce(quiz, s, Pass, r.value) && r.value.card == 0.0
  {
    var s1 := PanEnd(quiz, s, x);
    assert s1.dialogs[s1.dialogsAnswered] == SkipDialog(Now(s));
    var s2 := AnswerSkip(quiz, s1, true);
    assert [PanRelease(x), SkipAnswer(true)] == [PanRelease(x)] + ([SkipAnswer(true)] + []);
    RunCons(quiz, s, PanRelease(x), [SkipAnswer(true)] + []);
    RunCons(quiz, s1, SkipAnswer(true), []);
  }

  /**
   * A confirm with nothing selected while the shake runs opens the skip alert
   * from the same render as the shake. On the second-to-last question,
   * accepting the skip and then the finished shake each pass their test and
   * the index goes past the last question.
   */
  lemma SkipDuringShakeLeavesRange(quiz: Quiz, t: Screen)
    requires Inv(quiz, t) && t.mode == Active && !t.pointsChanged && t.selected == None
    requires t.dialogsAnswered == |t.dialogs| && t.shake == Some(Now(t))
    requires t.current + 2 == |quiz.questions|
    ensures var r := Run(quiz, t, [ConfirmPress, SkipAnswer(true), ShakeDone(true)]);
      r.Some? && r.value.mode == Crashed && r.value.current == |quiz.questions| && r.value.points == t.points
  {
    var t1 := Confirm(quiz, t);
    assert t1.dialogs[t1.dialogsAnswered] == SkipDialog(Now(t));
    var t2 := AnswerSkip(quiz, t1, true);
    var t3 := ShakeSettled(quiz, t2, true);
    assert [ConfirmPress, SkipAnswer(true), ShakeDone(true)] == [ConfirmPress] + ([SkipAnswer(true)] + ([ShakeDone(true)] + []));
    RunCons(quiz, t, ConfirmPress, [SkipAnswer(true)] + ([ShakeDone(true)] + []));
    RunCons(quiz, t1, SkipAnswer(true), [ShakeDone(true)] + []);
    RunCons(quiz, t2, ShakeDone(true), []);
  }
}
